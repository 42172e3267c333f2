# d3m-mtl-db-reader: denormalization, entity comparison and basic statistics

This project models, in Dafny, the core of the D3M metalearning database
reader and proves properties of the model.

- **Denormalization** (`denormalize.dfy`, module `Denormalize`). Pipeline-run
  documents in the lab's MongoDB hold bare `{id, digest}` references to
  problem, dataset and pipeline documents. One `UpdateMany` statement per
  source document copies the full document over the matching references.
  The model has four parts:
  - JSON-like documents (`Value`, `Doc`) and run documents (`RunDoc`).
  - The statements, and how MongoDB evaluates a filter, a `$set` and an
    array filter on a run. Equality is MongoDB's: a field matches a value
    when it holds it or is an array that has it as an element, and a null
    value also matches an absent field.
  - The three builders.
  - The batch driver `AmlDb.BulkReadWrite` and the orchestrator
    `ExtractDenormalized`. The orchestrator checks the index names, then
    processes problems, datasets and pipelines, in that order.
- **Problems** (`problem.dfy`). `Problem` is a class. The constructor collects
  the metric names of `performance_metrics` in a loop and sorts them.
  `IsTantamountTo` is the early-return loop that compares two problems.
- **Pipeline runs** (`pipeline_run.dfy`). `PipelineRun` is a class with the
  constructor's append loops and three queries: the nested-loop
  `FindCommonScores`, `IsSameProblemAndContextAs` (which compares datasets
  with `zip`), and `IsOneStepOffFrom`. Four comparisons are parameters of
  the queries, because their code is not part of this model: score
  equivalence within a tolerance, dataset equivalence, problem equivalence,
  and pipeline step distance.
- **Basic statistics** (`basic_stats.dfy`). The counting pass of
  `BasicStatsAnalysis.run` is a method with the source's nested loops. It
  is proved equal to `Tally`, a fold over the runs. Conservation laws are
  proved about `Tally`, for example that each per-run histogram sums to
  the number of runs. The pass ends by ranking the primitives by count.
- Support modules:
  - `results.dfy`: `Option`, `Result`, `Outcome`.
  - `sorting.dfy`: insertion sort under a total preorder, and the
    uniqueness of a sorted arrangement.
  - `histograms.dfy`: a `defaultdict(int)` as a map, with its sum and its
    items.

**The dataset filter as written.** The dataset statement is meant to
select runs that hold an unresolved reference to the dataset. Under
MongoDB's array-path semantics the code selects something else, and the
model follows the code (`ClauseHolds`, `DatasetFilter`):
- `datasets.id` is satisfied when some element has the id.
- `datasets.digest` is satisfied when some element has the digest. This
  can be a different element.
- `datasets.name: {$exists: false}` is satisfied only when *no* element has
  a `name`.

Two consequences are proved:
- `DatasetFilterSplitAcrossElements`: a run can be selected although no
  element refers to the dataset, and then nothing is written.
- `DatasetFillBlocksOthers`: once a statement whose source dataset has
  `name` has filled in one element of a run, no other dataset statement
  selects that run. The remaining references of
  a run with several datasets stay unresolved.

**Problem comparison.** The doc comment of `Problem.is_tantamount_to` says
that names are compared. The code does not compare names. The model
follows the code: `SameDefinition` compares metrics, type and subtype only.

## Model

| member | source | states |
|---|---|---|
| `Denormalize.BulkWriteAppend` | analytics/denormalize.py:90-113 | writing two groups of statements in two ordered bulk writes gives the same collection as writing them in one, so batching does not change the outcome |
| `Denormalize.ReferenceUpdate` | analytics/denormalize.py:14-25 | a reference statement can be built exactly when the source has `id` and `digest`; otherwise it fails with the `id` error first, then the `digest` error. On a run it overwrites the reference field with the source exactly when that field matches the source's id and digest (MongoDB equality) and lacks the marker, and leaves the run unchanged otherwise |
| `Denormalize.DenormalizeProblemOnAllRuns` | analytics/denormalize.py:8-25 | fails exactly when `id` or `digest` is missing (`id` reported first). A run becomes `run.(problem := problem)` exactly when its problem reference is an unresolved reference (same id and digest, no `name`) to this version; every other run is unchanged |
| `Denormalize.DenormalizePipelineOnAllRuns` | analytics/denormalize.py:51-68 | the same for `pipeline`, with `schema` as the marker |
| `Denormalize.FillMatching` | analytics/denormalize.py:44-47 | the dataset list keeps its length and order; each element whose id and digest both match the source's (MongoDB equality) becomes the source; every other element is unchanged |
| `Denormalize.DenormalizeDatasetOnAllRuns` | analytics/denormalize.py:28-48 | fails exactly when `id` or `digest` is missing. On a run selected by the as-written dataset filter, the matching elements are filled in; any other run is unchanged |
| `Denormalize.ProblemStatementEffect` | analytics/denormalize.py:14-24 | on a collection: unresolved references to the version get the source problem; runs with another digest, or whose problem already has `name` (stale or not), are unchanged; `pipeline`, `datasets` and the other fields are never touched |
| `Denormalize.PipelineStatementEffect` | analytics/denormalize.py:57-67 | the same for pipelines: a pipeline reference that has `schema` is never overwritten, and only the `pipeline` slot changes |
| `Denormalize.DatasetStatementEffect` | analytics/denormalize.py:34-47 | on a selected run exactly the elements with the source's id and digest are replaced, in place; a run where any element has `name` is unchanged; only `datasets` changes |
| `Denormalize.StatementIdempotent` | analytics/denormalize.py:14-67 | applying any builder's statement twice gives the same collection as applying it once |
| `Denormalize.ProblemRunIdempotent` | analytics/denormalize.py:14-24 | the problem statement applied twice to a run gives the run it gives once |
| `Denormalize.PipelineRunIdempotent` | analytics/denormalize.py:57-67 | the pipeline statement applied twice to a run gives the run it gives once |
| `Denormalize.DatasetRunIdempotent` | analytics/denormalize.py:34-47 | the dataset statement applied twice to a run gives the run it gives once |
| `Denormalize.DatasetFilterMeaning` | analytics/denormalize.py:35-43 | the three clauses of the dataset filter, read with array-path semantics, hold exactly when `DatasetFilter` does |
| `Denormalize.DatasetElementsSelected` | analytics/denormalize.py:44-47 | the array filter on `dataset.id` and `dataset.digest` selects exactly the elements that refer to the source's version |
| `Denormalize.DatasetStatementOnRun` | analytics/denormalize.py:34-47 | the built dataset statement fills the matching elements of a run the filter selects and leaves every other run as it is |
| `Denormalize.FillTwice` | analytics/denormalize.py:44-47 | filling the matching elements a second time changes nothing |
| `Denormalize.FillBlocksFilter` | analytics/denormalize.py:41-47 | filling in a source that has `name`, if it changes the list, leaves a list that no dataset filter selects |
| `Denormalize.DatasetFillBlocksOthers` | analytics/denormalize.py:37-47 | after a dataset statement whose source has `name` has changed a run, a second dataset statement leaves that run unchanged |
| `Denormalize.DatasetFilterSplitAcrossElements` | analytics/denormalize.py:37-47 | a run whose id and digest matches come from different elements is selected by the filter, yet no element is rewritten |
| `Denormalize.ProblemScenario` | analytics/denormalize.py:14-24 | problem `p1` at digest `d1`: the run referring to `(p1, d1)` gets the full problem, the run referring to `(p1, d2)` is unchanged |
| `Denormalize.NullIdMatchesMissingId` | analytics/denormalize.py:14-24 | a source whose `id` is null overwrites a problem reference that has the digest and no `id` at all |
| `Denormalize.ArrayIdMatchesElement` | analytics/denormalize.py:14-24 | a problem reference whose `id` is an array holding the source's id is overwritten |
| `Denormalize.ProblemRunEffect` | analytics/denormalize.py:14-24 | the problem statement's effect on one run: the whole `problem` slot becomes the source exactly when it is an unresolved reference to the source's version |
| `Denormalize.PipelineRunEffect` | analytics/denormalize.py:57-67 | the pipeline statement's effect on one run, with `schema` as the marker |
| `Denormalize.ParseIndex` | analytics/denormalize.py:86 | `Index(name)` yields exactly the index whose value is the name, and nothing for any other name |
| `Denormalize.ParseIndexes` | analytics/denormalize.py:86 | the set fails exactly when some name is not an index value, the error naming the first such name (every earlier name is valid); otherwise an index is in the set exactly when its value is among the names |
| `Denormalize.Ordered` | analytics/denormalize.py:88-113 | the kinds processed are exactly the selected source kinds, in the order problems, datasets, pipelines; all three when all are selected |
| `Denormalize.Schedule` | analytics/denormalize.py:82-113 | no names selects problems, datasets and pipelines in that order; otherwise exactly the named source kinds, without repetition, in the order problems, datasets, pipelines; an unknown name fails |
| `Denormalize.BuildAllSpec` | analytics/denormalize.py:90-113 | building a kind's statements gives one statement per source document in document order, and fails exactly when some document cannot be built, with the first such error |
| `Denormalize.BuildAllAppend` | analytics/denormalize.py:90-113 | the statements of two consecutive slices of documents are the statements of the joined slice |
| `Denormalize.BatchStep` | analytics/denormalize.py:90-113 | writing the next batch after the already written prefix equals writing the longer prefix at once |
| `Denormalize.AmlDb.constructor` | analytics/denormalize.py:80 | the database handle holds the three source collections and the pipeline-run collection |
| `Denormalize.AmlDb.DenormalizeKindsAppend` | analytics/denormalize.py:88-113 | processing kinds one after another is the same as processing the joined list; a failing kind stops the rest |
| `Denormalize.AmlDb.BulkReadWrite` | analytics/denormalize.py:90-113 | succeeds exactly when every source document can be built. On success the run collection is the ordered bulk write of all statements to the old collection; on failure it is the old collection with the whole batches before the first failing batch written, and nothing else |
| `Denormalize.ExtractDenormalized` | analytics/denormalize.py:71-113 | an unknown index name fails before the collection is touched. Otherwise it succeeds exactly when every selected kind can be built, and then the collection is the result of denormalizing the selected kinds in the order problems, datasets, pipelines. On a failure the kinds before the failing one are fully written, and of the failing kind the whole batches before its first failing batch. A batch size of 0 is accepted when no kind is processed |
| `Denormalize.DenormalizeSelected` | analytics/denormalize.py:88-113 | the three guarded passes succeed exactly when every selected kind can be built, and then leave the collection as denormalizing the selected kinds in order does; on a failure the earlier kinds are fully written and the failing kind part-way, batch by batch |
| `Denormalize.DenormalizeIfSelected` | analytics/denormalize.py:88-113 | one guarded pass: nothing happens when the kind is not selected; otherwise the kind is added to those processed, and a failure fails the whole selection, leaving the earlier kinds fully written and this kind written up to its first failing batch |
| `Problems.StrLeIsTotalOrder` | src/entities/problem.py:19 | Python's string order (lexicographic by code point) is total, transitive and antisymmetric |
| `Problems.InputMetrics` | src/entities/problem.py:15-18 | the metric names in document order, one per `performance_metrics` entry, and none when the key is absent |
| `Problems.SortedMetrics` | src/entities/problem.py:15-19 | the kept metric list is sorted ascending and is a permutation of the input metric names |
| `Problems.PermutedMetricsGiveSameList` | src/entities/problem.py:19 | documents that list the same metric names in a different order give the same metric list |
| `Problems.Problem.constructor` | src/entities/problem.py:9-19 | copies digest, name, type and subtype, and sets `metrics` to the sorted input metric names (empty when `performance_metrics` is absent) |
| `Problems.Problem.GetId` | src/entities/problem.py:24-25 | definition: a problem's id is its digest |
| `Problems.Problem.IsTantamountTo` | src/entities/problem.py:27-40 | true exactly when the metric lists are equal element by element (so false when their lengths differ) and type and subtype are equal; digest and name are not consulted |
| `Problems.SameMetricsGiveSameDefinition` | src/entities/problem.py:19-40 | problems whose sorted metric lists hold the same names equally often, with the same type and subtype, are tantamount, whatever their names and digests |
| `Problems.SameDefinitionIsEquivalence` | src/entities/problem.py:32-40 | the comparison is reflexive, symmetric and transitive |
| `PipelineRuns.MatchCount` | src/entities/pipeline_run.py:50-52 | the number of scores a score matches is at most the number of scores, and zero exactly when it matches none |
| `PipelineRuns.CommonScoresFromFirst` | src/entities/pipeline_run.py:48-53 | every common score is a score of `self`, and the positions they come from never decrease, so `self.scores` order is kept |
| `PipelineRuns.CommonScoresMembership` | src/entities/pipeline_run.py:48-53 | a score of `self` appears among the common scores exactly when it matches some score of `run` |
| `PipelineRuns.CommonScoresBound` | src/entities/pipeline_run.py:48-53 | at most `|self.scores| * |run.scores|` common scores |
| `PipelineRuns.ExtraDatasetsIgnored` | src/entities/pipeline_run.py:56-58 | datasets past the end of the shorter list, on either side, do not affect the pairwise comparison |
| `PipelineRuns.PipelineRun.constructor` | src/entities/pipeline_run.py:13-35 | copies the scalar fields; `scores` has the input scores in input order and is empty when `run.results.scores` is absent; `datasets` has one reference per input dataset in order |
| `PipelineRuns.PipelineRun.GetId` | src/entities/pipeline_run.py:37-38 | definition: a run's id is its `id` |
| `PipelineRuns.PipelineRun.FindCommonScores` | src/entities/pipeline_run.py:43-53 | the nested loop returns, for each score of `self` in turn, one copy per score of `run` it matches within the tolerance |
| `PipelineRuns.PipelineRun.IsSameProblemAndContextAs` | src/entities/pipeline_run.py:55-69 | true exactly when the datasets are pairwise tantamount (by the dataset relation) up to the shorter list, the phases and statuses are equal, and the problems are tantamount (by the problem relation) |
| `PipelineRuns.PipelineRun.IsOneStepOffFrom` | src/entities/pipeline_run.py:71-77 | definition: true exactly when the pipelines' step distance is 1 |
| `BasicStats.KnownStepsBound` | src/analyses/basic_stats.py:57-61 | primitive plus sub-pipeline steps are at most all steps, with equality exactly when no step is of another kind |
| `BasicStats.NormalizedCountBound` | src/analyses/basic_stats.py:77-78 | at most one normalized value per score is counted |
| `BasicStats.AppendValuesMatchCounts` | src/analyses/basic_stats.py:66-68 | appending a run's score values and counting its metrics keeps the lists and the counts in step: same keys, each list as long as its count |
| `BasicStats.AddRunsNameCounts` | src/analyses/basic_stats.py:85-91 | the phase, problem type, problem subtype and author histograms each gain exactly one count per run |
| `BasicStats.AddRunsSizeCounts` | src/analyses/basic_stats.py:63-64 | the score-count, dataset-count and header-count histograms each gain exactly one count per run |
| `BasicStats.AddRunsScoreCounts` | src/analyses/basic_stats.py:66-78 | the metric-type histogram gains one count per score; the normalized counter gains at most one per score |
| `BasicStats.AddRunsItemCounts` | src/analyses/basic_stats.py:57-95 | the digest histogram gains one count per dataset reference and the header-name histogram one per header; primitives and sub-pipelines gain at most one per step |
| `BasicStats.AddRunsValuesMatchCounts` | src/analyses/basic_stats.py:55-68 | over all runs the metric-value lists and metric counts stay in step |
| `BasicStats.TallyRunCounts` | src/analyses/basic_stats.py:25-95 | `num_runs` is the number of runs, and the phase, problem type, problem subtype, author, score-count, dataset-count and header-count histograms each sum to it |
| `BasicStats.TallyItemCounts` | src/analyses/basic_stats.py:55-95 | `metric_types_cnt` sums to the number of scores, and `metric_values[m]` has `metric_types_cnt[m]` values with the same keys. There are at most as many normalized values as scores. `dataset_digests_cnt` sums to the number of dataset references. Primitives plus sub-pipelines are at most the number of steps. Header names sum to the number of headers |
| `BasicStats.RankByCount` | src/analyses/basic_stats.py:98-105 | the ranked items are sorted by count, largest first, and are a permutation of the items |
| `BasicStats.CountSteps` | src/analyses/basic_stats.py:57-61 | the step loop counts each primitive's path and each sub-pipeline, and skips other steps |
| `BasicStats.CountScores` | src/analyses/basic_stats.py:66-78 | the score loop appends each value to its metric's list, counts each metric, and counts the normalized values |
| `BasicStats.CountDigests` | src/analyses/basic_stats.py:82-83 | the dataset loop counts each reference's digest |
| `BasicStats.CountHeaderNames` | src/analyses/basic_stats.py:94-95 | the header loop counts each header name |
| `BasicStats.CountRun` | src/analyses/basic_stats.py:56-95 | the loop body for one run updates every counter as `AddRun` describes |
| `BasicStats.CountRuns` | src/analyses/basic_stats.py:55-95 | the loop over the runs leaves the counters equal to `Tally` of the runs |
| `BasicStats.Run` | src/analyses/basic_stats.py:18-105 | the counters equal `Tally` of the runs; the ranked primitives are sorted by count, largest first, and hold each primitive with its count exactly once |
| `Histograms.IncEffect` | src/analyses/basic_stats.py:59 | `d[k] += 1` on a `defaultdict(int)` adds `k` to the keys, raises its count by one (from 0 when it was missing) and leaves every other count unchanged |
| `Histograms.TotalInc` | src/analyses/basic_stats.py:59 | one increment adds exactly one to the sum of the counts |
| `Histograms.TotalIncAll` | src/analyses/basic_stats.py:82-83 | counting a sequence of keys adds its length to the sum of the counts |
| `Histograms.Items` | src/analyses/basic_stats.py:98 | `items()` lists every key with its count exactly once |
| `Sorting.InsertionSort` | src/entities/problem.py:19 | the result is sorted by the comparison and is a permutation of the input |
| `Sorting.SortedUnique` | src/entities/problem.py:19 | under a total order there is only one sorted arrangement of a multiset |

## Left out

- Printing and plotting, including the `verbose` score lines and the report of the basic-statistics pass. `num_top_primitives` only limits the printed report, so it is left out too. The command-line entry point (`Fire`) is also left out.
- The MongoDB connection and `AMLDB` internals. The body of `AMLDB.bulk_read_write` is not part of this model. `AmlDb.BulkReadWrite` models only what the call site needs: the source documents are read in batches, one statement is built per document, each batch is written as one ordered bulk write, and a document that cannot be built stops before its batch is written. Cursors, retries, `BulkWriteError`, server atomicity, concurrent writers and timeouts are not modelled.
- Denormalize.AmlDb.BulkReadWrite: requires a positive batch size. With a zero batch size the source's own behaviour is not part of this model, so `ExtractDenormalized`, `DenormalizeSelected` and `DenormalizeIfSelected` require a positive batch size whenever some kind is processed.
- The `Index` enumeration is not part of this model. Its values are taken to be `problems`, `datasets`, `pipelines` and `pipeline_runs`. `pipeline_runs` is a valid name that selects nothing to denormalize.
- Documents are simplified. Numbers are mathematical reals, and BSON types, key order and `$set` on nested paths other than the three reference slots are not modelled. A run document has a fixed shape: `problem`, `pipeline`, a `datasets` list, and the other fields.
- Default arguments are explicit parameters: `ExtractDenormalized` takes the batch size (50 by default in analytics/denormalize.py:71) and `PipelineRun.FindCommonScores` the tolerance (0.0 by default in src/entities/pipeline_run.py:43). The success state does not depend on the batch size.
- Equality on `datasets.<key>` is read element by element. How MongoDB compares null against an empty `datasets` array is not modelled.
- A builder given a source without `id` or `digest` returns an error value. In the source this is a `KeyError`.
- Problems.Problem.constructor: the entity constructors take typed records of the fields they read. `enforce_field`, the `KeyError` on a missing key and the `ValueError` of `ProblemType(...)` are not modelled, and the task type is kept as its string.
- PipelineRuns.PipelineRun.constructor: `start` and `end` are kept as text, because the `iso8601` parser is not part of this model. `should_enforce_id`/`enforce_field` are not modelled, and `Score` and `DocumentReference` values are taken as given. The later dereferencing of the references by the loader is not modelled either.
- `PipelineRun.is_tantamount_to` only raises `NotImplementedError`, so it is not modelled.
- Score equivalence within a tolerance, dataset and problem equivalence, and pipeline step distance are parameters. Their code (`Score`, `DocumentReference`, `Pipeline`) is not part of this model, and floating-point tolerance is not modelled.
- BasicStats.Run: the runs are a sequence in the dictionary's iteration order. Each run is a record of only the attributes the pass reads, with its pipeline and problem already dereferenced. `prediction_headers` is not set by the `PipelineRun` class in src/entities/pipeline_run.py; the model takes it as given, from whatever attaches it to the run.
- BasicStats.RankByCount: Python's `sorted` is stable, and the model's insertion sort is not proved stable. The order of `items()` is not fixed by the model either, so the order among primitives with equal counts is unspecified.
- String comparison uses Dafny characters (Unicode scalar values), which is the same as Python's code-point order.
- `src/dump.py`, `src/analyze.py`, `src/entities/predictions.py` and `tests/utils.py` are not part of this model: they are I/O, command-line glue, and numeric coercion through pandas.
