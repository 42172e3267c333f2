/** The counting pass of the basic-statistics analysis: one walk over the
    pipeline runs that fills histograms of phases, problem types, metrics,
    datasets, primitives, authors and prediction headers, followed by a
    ranking of the primitives by how often they are used. */
module BasicStats {
  import opened Results
  import opened Histograms
  import opened Sorting
  import opened PipelineRuns

  /** A step of a run's pipeline: a primitive (with its short Python path),
      a sub-pipeline, or any other kind, which the pass does not count. */
  datatype Step = PrimitiveStep(shortPythonPath: string) | SubpipelineStep | OtherStep

  /** What the pass reads of a pipeline run once its references have been
      dereferenced: the pipeline's steps and source name, the scores, the
      dataset references, the phase, the problem's type and subtype, and the
      prediction column headers. */
  datatype StatsRun = StatsRun(
    steps: seq<Step>,
    sourceName: string,
    scores: seq<Score>,
    datasets: seq<DocumentReference>,
    phase: string,
    problemType: string,
    problemSubtype: string,
    predictionHeaders: seq<string>)

  /** The counters of the pass. */
  datatype Stats = Stats(
    numRuns: nat,
    metricValues: map<string, seq<real>>,
    phaseCnts: map<string, nat>,
    problemTypeCnts: map<string, nat>,
    problemSubtypeCnts: map<string, nat>,
    metricTypesCnt: map<string, nat>,
    numDatasetsCnt: map<int, nat>,
    datasetDigestsCnt: map<string, nat>,
    scoreCnt: map<int, nat>,
    numNormalizedMetricValues: nat,
    primitivesCnt: map<string, nat>,
    numSubpipelines: nat,
    authorValues: map<string, nat>,
    predHeaderCnt: map<int, nat>,
    predHeaderNamesCnt: map<string, nat>)

  /** Every counter empty or zero. */
  const Empty: Stats := Stats(0, map[], map[], map[], map[], map[], map[], map[], map[], 0, map[], 0, map[], map[], map[])

  // ---------------------------------------------------------------------
  // What one run contributes

  /** The paths of the primitive steps, in order. */
  function PrimitivePaths(steps: seq<Step>): seq<string>
  {
    if |steps| == 0 then []
    else
      var last := steps[|steps| - 1];
      PrimitivePaths(steps[..|steps| - 1]) + (if last.PrimitiveStep? then [last.shortPythonPath] else [])
  }

  /** The number of sub-pipeline steps. */
  function SubpipelineCount(steps: seq<Step>): nat
  {
    if |steps| == 0 then 0
    else SubpipelineCount(steps[..|steps| - 1]) + (if steps[|steps| - 1].SubpipelineStep? then 1 else 0)
  }

  /** Primitives and sub-pipelines together are at most all the steps; the
      other steps are not counted. */
  lemma {:induction false} KnownStepsBound(steps: seq<Step>)
    ensures |PrimitivePaths(steps)| + SubpipelineCount(steps) <= |steps|
    ensures |PrimitivePaths(steps)| + SubpipelineCount(steps) == |steps| <==>
      forall i :: 0 <= i < |steps| ==> !steps[i].OtherStep?
  {
    if |steps| > 0 {
      var init := steps[..|steps| - 1];
      KnownStepsBound(init);
      assert forall i :: 0 <= i < |init| ==> init[i] == steps[i];
    }
  }

  /** The metric of each score, in order. */
  function Metrics(scores: seq<Score>): (r: seq<string>)
    ensures |r| == |scores| && forall i :: 0 <= i < |r| ==> r[i] == scores[i].metric
  {
    seq(|scores|, i requires 0 <= i < |scores| => scores[i].metric)
  }

  /** The number of scores that carry a normalized value. */
  function NormalizedCount(scores: seq<Score>): nat
  {
    if |scores| == 0 then 0
    else NormalizedCount(scores[..|scores| - 1]) + (if scores[|scores| - 1].normalized.Some? then 1 else 0)
  }

  lemma {:induction false} NormalizedCountBound(scores: seq<Score>)
    ensures NormalizedCount(scores) <= |scores|
  {
    if |scores| > 0 {
      NormalizedCountBound(scores[..|scores| - 1]);
    }
  }

  /** The list of values recorded for `m`, empty if none. */
  function Values(mv: map<string, seq<real>>, m: string): seq<real>
  {
    if m in mv then mv[m] else []
  }

  /** `metric_values[score.metric].append(score.value)` for every score in turn. */
  function AppendValues(mv: map<string, seq<real>>, scores: seq<Score>): map<string, seq<real>>
  {
    if |scores| == 0 then mv
    else
      var last := scores[|scores| - 1];
      var before := AppendValues(mv, scores[..|scores| - 1]);
      before[last.metric := Values(before, last.metric) + [last.value]]
  }

  /** The digest of each dataset reference, in order. */
  function Digests(ds: seq<DocumentReference>): (r: seq<string>)
    ensures |r| == |ds| && forall i :: 0 <= i < |r| ==> r[i] == ds[i].digest
  {
    seq(|ds|, i requires 0 <= i < |ds| => ds[i].digest)
  }

  /** The counters after one more run. */
  function AddRun(st: Stats, run: StatsRun): Stats
  {
    st.(
      primitivesCnt := IncAll(st.primitivesCnt, PrimitivePaths(run.steps)),
      numSubpipelines := st.numSubpipelines + SubpipelineCount(run.steps),
      scoreCnt := Inc(st.scoreCnt, |run.scores|),
      metricValues := AppendValues(st.metricValues, run.scores),
      metricTypesCnt := IncAll(st.metricTypesCnt, Metrics(run.scores)),
      numNormalizedMetricValues := st.numNormalizedMetricValues + NormalizedCount(run.scores),
      numDatasetsCnt := Inc(st.numDatasetsCnt, |run.datasets|),
      datasetDigestsCnt := IncAll(st.datasetDigestsCnt, Digests(run.datasets)),
      phaseCnts := Inc(st.phaseCnts, run.phase),
      problemTypeCnts := Inc(st.problemTypeCnts, run.problemType),
      problemSubtypeCnts := Inc(st.problemSubtypeCnts, run.problemSubtype),
      authorValues := Inc(st.authorValues, run.sourceName),
      predHeaderCnt := Inc(st.predHeaderCnt, |run.predictionHeaders|),
      predHeaderNamesCnt := IncAll(st.predHeaderNamesCnt, run.predictionHeaders))
  }

  /** The counters after the runs, in order, starting from `st`. */
  function AddRuns(st: Stats, runs: seq<StatsRun>): Stats
  {
    if |runs| == 0 then st else AddRun(AddRuns(st, runs[..|runs| - 1]), runs[|runs| - 1])
  }

  /** The result of the pass: the run count and every counter filled from the runs. */
  function Tally(runs: seq<StatsRun>): Stats
  {
    AddRuns(Empty.(numRuns := |runs|), runs)
  }

  // ---------------------------------------------------------------------
  // Conservation laws

  /** Totals over all runs. */
  function TotalScores(runs: seq<StatsRun>): nat
  {
    if |runs| == 0 then 0 else TotalScores(runs[..|runs| - 1]) + |runs[|runs| - 1].scores|
  }

  function TotalDatasets(runs: seq<StatsRun>): nat
  {
    if |runs| == 0 then 0 else TotalDatasets(runs[..|runs| - 1]) + |runs[|runs| - 1].datasets|
  }

  function TotalSteps(runs: seq<StatsRun>): nat
  {
    if |runs| == 0 then 0 else TotalSteps(runs[..|runs| - 1]) + |runs[|runs| - 1].steps|
  }

  function TotalHeaders(runs: seq<StatsRun>): nat
  {
    if |runs| == 0 then 0 else TotalHeaders(runs[..|runs| - 1]) + |runs[|runs| - 1].predictionHeaders|
  }

  /** The metric-value lists and the metric counts have the same keys, and
      each list is as long as its count. */
  ghost predicate ValuesMatchCounts(mv: map<string, seq<real>>, cnt: map<string, nat>)
  {
    mv.Keys == cnt.Keys && forall m :: m in mv ==> |mv[m]| == cnt[m]
  }

  lemma {:induction false} AppendValuesMatchCounts(mv: map<string, seq<real>>, cnt: map<string, nat>, scores: seq<Score>)
    requires ValuesMatchCounts(mv, cnt)
    ensures ValuesMatchCounts(AppendValues(mv, scores), IncAll(cnt, Metrics(scores)))
  {
    if |scores| > 0 {
      var init := scores[..|scores| - 1];
      AppendValuesMatchCounts(mv, cnt, init);
      assert Metrics(scores) == Metrics(init) + [scores[|scores| - 1].metric];
      IncAllSnoc(cnt, Metrics(init), scores[|scores| - 1].metric);
    }
  }

  /** Each per-run histogram keyed by a name gains one count per run. */
  lemma {:induction false} AddRunsNameCounts(st: Stats, runs: seq<StatsRun>)
    ensures var out := AddRuns(st, runs);
      && out.numRuns == st.numRuns
      && Total(out.phaseCnts) == Total(st.phaseCnts) + |runs|
      && Total(out.problemTypeCnts) == Total(st.problemTypeCnts) + |runs|
      && Total(out.problemSubtypeCnts) == Total(st.problemSubtypeCnts) + |runs|
      && Total(out.authorValues) == Total(st.authorValues) + |runs|
  {
    if |runs| > 0 {
      var init, run := runs[..|runs| - 1], runs[|runs| - 1];
      AddRunsNameCounts(st, init);
      var mid := AddRuns(st, init);
      assert AddRuns(st, runs) == AddRun(mid, run);
      TotalInc(mid.phaseCnts, run.phase);
      TotalInc(mid.problemTypeCnts, run.problemType);
      TotalInc(mid.problemSubtypeCnts, run.problemSubtype);
      TotalInc(mid.authorValues, run.sourceName);
    }
  }

  /** Each per-run histogram keyed by a size gains one count per run. */
  lemma {:induction false} AddRunsSizeCounts(st: Stats, runs: seq<StatsRun>)
    ensures var out := AddRuns(st, runs);
      && Total(out.scoreCnt) == Total(st.scoreCnt) + |runs|
      && Total(out.numDatasetsCnt) == Total(st.numDatasetsCnt) + |runs|
      && Total(out.predHeaderCnt) == Total(st.predHeaderCnt) + |runs|
  {
    if |runs| > 0 {
      var init, run := runs[..|runs| - 1], runs[|runs| - 1];
      AddRunsSizeCounts(st, init);
      var mid := AddRuns(st, init);
      assert AddRuns(st, runs) == AddRun(mid, run);
      TotalInc(mid.scoreCnt, |run.scores|);
      TotalInc(mid.numDatasetsCnt, |run.datasets|);
      TotalInc(mid.predHeaderCnt, |run.predictionHeaders|);
    }
  }

  /** The per-score counters gain one count per score; at most one
      normalized value is counted per score. */
  lemma {:induction false} AddRunsScoreCounts(st: Stats, runs: seq<StatsRun>)
    ensures var out := AddRuns(st, runs);
      && Total(out.metricTypesCnt) == Total(st.metricTypesCnt) + TotalScores(runs)
      && out.numNormalizedMetricValues <= st.numNormalizedMetricValues + TotalScores(runs)
  {
    if |runs| > 0 {
      var init, run := runs[..|runs| - 1], runs[|runs| - 1];
      AddRunsScoreCounts(st, init);
      var mid := AddRuns(st, init);
      assert AddRuns(st, runs) == AddRun(mid, run);
      TotalIncAll(mid.metricTypesCnt, Metrics(run.scores));
      NormalizedCountBound(run.scores);
    }
  }

  /** The per-dataset and per-header counters gain one count per item; the
      primitive and sub-pipeline counters together at most one per step. */
  lemma {:induction false} AddRunsItemCounts(st: Stats, runs: seq<StatsRun>)
    ensures var out := AddRuns(st, runs);
      && Total(out.datasetDigestsCnt) == Total(st.datasetDigestsCnt) + TotalDatasets(runs)
      && Total(out.primitivesCnt) + out.numSubpipelines <= Total(st.primitivesCnt) + st.numSubpipelines + TotalSteps(runs)
      && Total(out.predHeaderNamesCnt) == Total(st.predHeaderNamesCnt) + TotalHeaders(runs)
  {
    if |runs| > 0 {
      var init, run := runs[..|runs| - 1], runs[|runs| - 1];
      AddRunsItemCounts(st, init);
      var mid := AddRuns(st, init);
      assert AddRuns(st, runs) == AddRun(mid, run);
      TotalIncAll(mid.datasetDigestsCnt, Digests(run.datasets));
      TotalIncAll(mid.primitivesCnt, PrimitivePaths(run.steps));
      KnownStepsBound(run.steps);
      TotalIncAll(mid.predHeaderNamesCnt, run.predictionHeaders);
    }
  }

  lemma {:induction false} AddRunsValuesMatchCounts(st: Stats, runs: seq<StatsRun>)
    requires ValuesMatchCounts(st.metricValues, st.metricTypesCnt)
    ensures ValuesMatchCounts(AddRuns(st, runs).metricValues, AddRuns(st, runs).metricTypesCnt)
  {
    if |runs| > 0 {
      AddRunsValuesMatchCounts(st, runs[..|runs| - 1]);
      var mid := AddRuns(st, runs[..|runs| - 1]);
      AppendValuesMatchCounts(mid.metricValues, mid.metricTypesCnt, runs[|runs| - 1].scores);
    }
  }

  /** Over the whole pass, `num_runs` is the number of runs and each
      per-run histogram sums to it. */
  lemma TallyRunCounts(runs: seq<StatsRun>)
    ensures var st := Tally(runs);
      && st.numRuns == |runs|
      && Total(st.phaseCnts) == st.numRuns
      && Total(st.problemTypeCnts) == st.numRuns
      && Total(st.problemSubtypeCnts) == st.numRuns
      && Total(st.authorValues) == st.numRuns
      && Total(st.scoreCnt) == st.numRuns
      && Total(st.numDatasetsCnt) == st.numRuns
      && Total(st.predHeaderCnt) == st.numRuns
  {
    StartTotals(|runs|);
    AddRunsNameCounts(Empty.(numRuns := |runs|), runs);
    AddRunsSizeCounts(Empty.(numRuns := |runs|), runs);
  }

  /** Over the whole pass, the per-item counters agree with the number of
      scores, dataset references, steps and headers of all runs. */
  lemma TallyItemCounts(runs: seq<StatsRun>)
    ensures var st := Tally(runs);
      && Total(st.metricTypesCnt) == TotalScores(runs)
      && (forall m :: m in st.metricValues <==> m in st.metricTypesCnt)
      && (forall m :: m in st.metricValues ==> |st.metricValues[m]| == st.metricTypesCnt[m])
      && st.numNormalizedMetricValues <= TotalScores(runs)
      && Total(st.datasetDigestsCnt) == TotalDatasets(runs)
      && Total(st.primitivesCnt) + st.numSubpipelines <= TotalSteps(runs)
      && Total(st.predHeaderNamesCnt) == TotalHeaders(runs)
  {
    StartTotals(|runs|);
    AddRunsScoreCounts(Empty.(numRuns := |runs|), runs);
    AddRunsItemCounts(Empty.(numRuns := |runs|), runs);
    AddRunsValuesMatchCounts(Empty.(numRuns := |runs|), runs);
  }

  /** Every counter of the starting value is empty. */
  lemma StartTotals(n: nat)
    ensures var start := Empty.(numRuns := n);
      && Total(start.phaseCnts) == 0 && Total(start.problemTypeCnts) == 0
      && Total(start.problemSubtypeCnts) == 0 && Total(start.authorValues) == 0
      && Total(start.scoreCnt) == 0 && Total(start.numDatasetsCnt) == 0
      && Total(start.predHeaderCnt) == 0 && Total(start.metricTypesCnt) == 0
      && Total(start.datasetDigestsCnt) == 0 && Total(start.primitivesCnt) == 0
      && Total(start.predHeaderNamesCnt) == 0
      && ValuesMatchCounts(start.metricValues, start.metricTypesCnt)
  {
    var start := Empty.(numRuns := n);
    TotalEmpty(start.phaseCnts);
    TotalEmpty(start.problemTypeCnts);
    TotalEmpty(start.problemSubtypeCnts);
    TotalEmpty(start.authorValues);
    TotalEmpty(start.scoreCnt);
    TotalEmpty(start.numDatasetsCnt);
    TotalEmpty(start.predHeaderCnt);
    TotalEmpty(start.metricTypesCnt);
    TotalEmpty(start.datasetDigestsCnt);
    TotalEmpty(start.primitivesCnt);
    TotalEmpty(start.predHeaderNamesCnt);
  }

  // ---------------------------------------------------------------------
  // Ranking the primitives

  /** `key=get_count, reverse=True`: by count, largest first. */
  predicate ByCountDesc(p: (string, nat), q: (string, nat))
  {
    p.1 >= q.1
  }

  /** The primitive items sorted by count, largest first. */
  function RankByCount(items: seq<(string, nat)>): (r: seq<(string, nat)>)
    ensures SortedBy(r, ByCountDesc)
    ensures multiset(r) == multiset(items)
  {
    InsertionSort(items, ByCountDesc)
  }

  // ---------------------------------------------------------------------
  // The pass

  /** The loop over a pipeline's steps: a primitive counts its path, a
      sub-pipeline counts once, any other step is skipped. */
  method CountSteps(steps: seq<Step>, primitives: map<string, nat>, subpipelines: nat)
    returns (primitivesOut: map<string, nat>, subpipelinesOut: nat)
    ensures primitivesOut == IncAll(primitives, PrimitivePaths(steps))
    ensures subpipelinesOut == subpipelines + SubpipelineCount(steps)
  {
    primitivesOut, subpipelinesOut := primitives, subpipelines;
    var j := 0;
    while j < |steps|
      invariant 0 <= j <= |steps|
      invariant primitivesOut == IncAll(primitives, PrimitivePaths(steps[..j]))
      invariant subpipelinesOut == subpipelines + SubpipelineCount(steps[..j])
    {
      var step := steps[j];
      assert steps[..j + 1][..j] == steps[..j] && steps[..j + 1][j] == step;
      if step.PrimitiveStep? {
        assert PrimitivePaths(steps[..j + 1]) == PrimitivePaths(steps[..j]) + [step.shortPythonPath];
        IncAllSnoc(primitives, PrimitivePaths(steps[..j]), step.shortPythonPath);
        primitivesOut := Inc(primitivesOut, step.shortPythonPath);
      } else {
        assert PrimitivePaths(steps[..j + 1]) == PrimitivePaths(steps[..j]) + [];
        assert PrimitivePaths(steps[..j]) + [] == PrimitivePaths(steps[..j]);
        if step.SubpipelineStep? {
          subpipelinesOut := subpipelinesOut + 1;
        }
      }
      j := j + 1;
    }
    assert steps[..j] == steps;
  }

  /** What one more score adds to the score counters' specifications. */
  lemma ScoresStep(scores: seq<Score>, j: nat, values: map<string, seq<real>>, metrics: map<string, nat>)
    requires j < |scores|
    ensures var before := AppendValues(values, scores[..j]);
      AppendValues(values, scores[..j + 1]) == before[scores[j].metric := Values(before, scores[j].metric) + [scores[j].value]]
    ensures IncAll(metrics, Metrics(scores[..j + 1])) == Inc(IncAll(metrics, Metrics(scores[..j])), scores[j].metric)
    ensures NormalizedCount(scores[..j + 1]) == NormalizedCount(scores[..j]) + (if scores[j].normalized.Some? then 1 else 0)
  {
    assert scores[..j + 1][..j] == scores[..j] && scores[..j + 1][j] == scores[j];
    assert Metrics(scores[..j + 1]) == Metrics(scores[..j]) + [scores[j].metric];
    IncAllSnoc(metrics, Metrics(scores[..j]), scores[j].metric);
  }

  /** The loop over a run's scores: the value is appended to its metric's
      list, the metric is counted, and so is a normalized value if present. */
  method CountScores(scores: seq<Score>, values: map<string, seq<real>>, metrics: map<string, nat>, normalized: nat)
    returns (valuesOut: map<string, seq<real>>, metricsOut: map<string, nat>, normalizedOut: nat)
    ensures valuesOut == AppendValues(values, scores)
    ensures metricsOut == IncAll(metrics, Metrics(scores))
    ensures normalizedOut == normalized + NormalizedCount(scores)
  {
    valuesOut, metricsOut, normalizedOut := values, metrics, normalized;
    var j := 0;
    while j < |scores|
      invariant 0 <= j <= |scores|
      invariant valuesOut == AppendValues(values, scores[..j])
      invariant metricsOut == IncAll(metrics, Metrics(scores[..j]))
      invariant normalizedOut == normalized + NormalizedCount(scores[..j])
    {
      var score := scores[j];
      ScoresStep(scores, j, values, metrics);
      valuesOut := valuesOut[score.metric := Values(valuesOut, score.metric) + [score.value]];
      metricsOut := Inc(metricsOut, score.metric);
      if score.normalized.Some? {
        normalizedOut := normalizedOut + 1;
      }
      j := j + 1;
    }
    assert scores[..j] == scores;
  }

  /** The loop over a run's dataset references, counting each digest. */
  method CountDigests(datasets: seq<DocumentReference>, digests: map<string, nat>)
    returns (digestsOut: map<string, nat>)
    ensures digestsOut == IncAll(digests, Digests(datasets))
  {
    digestsOut := digests;
    var j := 0;
    while j < |datasets|
      invariant 0 <= j <= |datasets|
      invariant digestsOut == IncAll(digests, Digests(datasets[..j]))
    {
      assert Digests(datasets[..j + 1]) == Digests(datasets[..j]) + [datasets[j].digest];
      IncAllSnoc(digests, Digests(datasets[..j]), datasets[j].digest);
      digestsOut := Inc(digestsOut, datasets[j].digest);
      j := j + 1;
    }
    assert datasets[..j] == datasets;
  }

  /** The loop over a run's prediction headers, counting each name. */
  method CountHeaderNames(headers: seq<string>, names: map<string, nat>)
    returns (namesOut: map<string, nat>)
    ensures namesOut == IncAll(names, headers)
  {
    namesOut := names;
    var j := 0;
    while j < |headers|
      invariant 0 <= j <= |headers|
      invariant namesOut == IncAll(names, headers[..j])
    {
      IncAllSnoc(names, headers[..j], headers[j]);
      assert headers[..j + 1] == headers[..j] + [headers[j]];
      namesOut := Inc(namesOut, headers[j]);
      j := j + 1;
    }
    assert headers[..j] == headers;
  }

  /** The body of the loop for one run, in the order the counters are
      updated: steps, scores, datasets, phase, problem type and subtype,
      author, prediction headers. */
  method CountRun(st: Stats, run: StatsRun) returns (out: Stats)
    ensures out == AddRun(st, run)
  {
    var primitives, subpipelines := CountSteps(run.steps, st.primitivesCnt, st.numSubpipelines);
    var values, metrics, normalized := CountScores(run.scores, st.metricValues, st.metricTypesCnt, st.numNormalizedMetricValues);
    var digests := CountDigests(run.datasets, st.datasetDigestsCnt);
    var headerNames := CountHeaderNames(run.predictionHeaders, st.predHeaderNamesCnt);
    out := st.(
      primitivesCnt := primitives,
      numSubpipelines := subpipelines,
      scoreCnt := Inc(st.scoreCnt, |run.scores|),
      metricValues := values,
      metricTypesCnt := metrics,
      numNormalizedMetricValues := normalized,
      numDatasetsCnt := Inc(st.numDatasetsCnt, |run.datasets|),
      datasetDigestsCnt := digests,
      phaseCnts := Inc(st.phaseCnts, run.phase),
      problemTypeCnts := Inc(st.problemTypeCnts, run.problemType),
      problemSubtypeCnts := Inc(st.problemSubtypeCnts, run.problemSubtype),
      authorValues := Inc(st.authorValues, run.sourceName),
      predHeaderCnt := Inc(st.predHeaderCnt, |run.predictionHeaders|),
      predHeaderNamesCnt := headerNames);
  }

  /** The counting loop over the runs. */
  method CountRuns(runs: seq<StatsRun>) returns (st: Stats)
    ensures st == Tally(runs)
  {
    st := Empty.(numRuns := |runs|);
    var i := 0;
    while i < |runs|
      invariant 0 <= i <= |runs|
      invariant st == AddRuns(Empty.(numRuns := |runs|), runs[..i])
    {
      st := CountRun(st, runs[i]);
      assert runs[..i + 1][..i] == runs[..i];
      i := i + 1;
    }
    assert runs[..i] == runs;
  }

  /** The counting pass followed by the ranking of the primitive counts. */
  method Run(runs: seq<StatsRun>) returns (st: Stats, ranked: seq<(string, nat)>)
    ensures st == Tally(runs)
    ensures SortedBy(ranked, ByCountDesc)
    ensures |ranked| == |st.primitivesCnt|
    ensures forall p :: p in ranked <==> p.0 in st.primitivesCnt && st.primitivesCnt[p.0] == p.1
  {
    st := CountRuns(runs);
    var items := Items(st.primitivesCnt);
    ranked := RankByCount(items);
    SameElements(ranked, items);
  }
}
