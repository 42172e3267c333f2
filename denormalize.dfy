/** Denormalization of pipeline-run documents: copying the full problem,
    dataset and pipeline documents over the bare `{id, digest}` references
    that pipeline runs hold, with one MongoDB `UpdateMany` statement per
    source document.

    The module has four layers: JSON-like documents and pipeline runs; the
    `UpdateMany` statements and how MongoDB evaluates them on a collection;
    the three statement builders; and the batch driver together with the
    orchestrator that picks which kinds of source document to process. */
module Denormalize {
  import opened Results

  // ---------------------------------------------------------------------
  // Documents

  /** A JSON-like value as stored in the document database. */
  datatype Value =
    | Null
    | Bool(b: bool)
    | Number(n: real)
    | Str(s: string)
    | Array(items: seq<Value>)
    | Object(fields: map<string, Value>)

  /** A document: field names to values. */
  type Doc = map<string, Value>

  /** A pipeline-run document: its problem reference, its pipeline reference,
      its list of dataset references, and every other field it has. */
  datatype RunDoc = RunDoc(problem: Doc, pipeline: Doc, datasets: seq<Doc>, others: Doc)

  /** MongoDB's equality `{"key": v}` on a sub-document: the field holds `v`,
      or it holds an array that has `v` as an element, or `v` is null and the
      field is absent. */
  predicate HasValue(d: Doc, key: string, v: Value)
  {
    if key in d then d[key] == v || (d[key].Array? && v in d[key].items)
    else v == Null
  }

  // ---------------------------------------------------------------------
  // UpdateMany statements and their evaluation

  /** The two single-valued reference fields of a run. */
  datatype RefField = ProblemField | PipelineField

  /** A dotted query path: `problem.<key>`, `pipeline.<key>`, or
      `datasets.<key>`, which MongoDB evaluates against every array element. */
  datatype Path = Ref(field: RefField, key: string) | InDatasets(key: string)

  /** The two query operators the builders use: equality and `{"$exists": False}`. */
  datatype Condition = Equals(value: Value) | NotExists

  datatype Clause = Clause(path: Path, cond: Condition)

  /** The field that `$set` overwrites: a whole reference field, or
      `datasets.$[matcher]`, the array elements selected by the array filter. */
  datatype SetTarget = Whole(field: RefField) | MatchedDatasets

  /** pymongo's `UpdateMany(filter={"$and": filter}, update={"$set": {target: doc}},
      array_filters=[{"matcher.<key>": value, ...}])`. */
  datatype UpdateMany = UpdateMany(
    filter: seq<Clause>,
    target: SetTarget,
    doc: Doc,
    arrayFilter: seq<(string, Value)>)

  function RefDoc(run: RunDoc, f: RefField): Doc
  {
    match f
    case ProblemField => run.problem
    case PipelineField => run.pipeline
  }

  /** MongoDB's reading of one clause. On an array path an equality holds when
      SOME element has the value, and `$exists: False` holds when NO element
      has the field; separate clauses may be satisfied by different elements. */
  predicate ClauseHolds(c: Clause, run: RunDoc)
  {
    match c.path
    case Ref(f, key) =>
      (match c.cond
       case Equals(v) => HasValue(RefDoc(run, f), key, v)
       case NotExists => key !in RefDoc(run, f))
    case InDatasets(key) =>
      (match c.cond
       case Equals(v) => exists i :: 0 <= i < |run.datasets| && HasValue(run.datasets[i], key, v)
       case NotExists => forall i :: 0 <= i < |run.datasets| ==> key !in run.datasets[i])
  }

  /** The `$and` of all clauses. */
  predicate FilterMatches(filter: seq<Clause>, run: RunDoc)
  {
    forall i :: 0 <= i < |filter| ==> ClauseHolds(filter[i], run)
  }

  /** An array element satisfies the array filter on `matcher`. */
  predicate ElementSelected(arrayFilter: seq<(string, Value)>, e: Doc)
  {
    forall i :: 0 <= i < |arrayFilter| ==> HasValue(e, arrayFilter[i].0, arrayFilter[i].1)
  }

  /** `$set` of a whole reference field. */
  function SetRef(run: RunDoc, field: RefField, d: Doc): RunDoc
  {
    match field
    case ProblemField => run.(problem := d)
    case PipelineField => run.(pipeline := d)
  }

  /** The `$set` of a statement on one run that its filter selected. */
  function SetOn(u: UpdateMany, run: RunDoc): RunDoc
  {
    match u.target
    case Whole(field) => SetRef(run, field, u.doc)
    case MatchedDatasets =>
      run.(datasets := seq(|run.datasets|, i requires 0 <= i < |run.datasets| =>
             if ElementSelected(u.arrayFilter, run.datasets[i]) then u.doc else run.datasets[i]))
  }

  /** One statement applied to one run. */
  function UpdateRun(u: UpdateMany, run: RunDoc): RunDoc
  {
    if FilterMatches(u.filter, run) then SetOn(u, run) else run
  }

  /** One statement applied to every run of the collection. */
  function Apply(u: UpdateMany, runs: seq<RunDoc>): seq<RunDoc>
  {
    seq(|runs|, i requires 0 <= i < |runs| => UpdateRun(u, runs[i]))
  }

  /** An ordered bulk write: the statements applied one after another. */
  function BulkWrite(stmts: seq<UpdateMany>, runs: seq<RunDoc>): seq<RunDoc>
  {
    if |stmts| == 0 then runs else BulkWrite(stmts[1..], Apply(stmts[0], runs))
  }

  /** Writing two groups of statements in two bulk writes is the same as
      writing them in one: batching does not change the outcome. */
  lemma {:induction false} BulkWriteAppend(s1: seq<UpdateMany>, s2: seq<UpdateMany>, runs: seq<RunDoc>)
    ensures BulkWrite(s1 + s2, runs) == BulkWrite(s2, BulkWrite(s1, runs))
  {
    if |s1| == 0 {
      assert s1 + s2 == s2;
    } else {
      assert (s1 + s2)[0] == s1[0];
      assert (s1 + s2)[1..] == s1[1..] + s2;
      BulkWriteAppend(s1[1..], s2, Apply(s1[0], runs));
    }
  }

  // ---------------------------------------------------------------------
  // Statement builders

  /** Marker fields: present on a full document, absent on a bare reference. */
  const ProblemMarker: string := "name"
  const DatasetMarker: string := "name"
  const PipelineMarker: string := "schema"

  datatype Error =
    | MissingField(key: string)   // the source document lacks `id` or `digest` (a KeyError)
    | UnknownIndex(name: string)  // an index name outside the Index enumeration (a ValueError)

  /** `ref` is a reference to `src`'s version (same `id` and `digest`) that
      still lacks `marker`. */
  predicate Unresolved(ref: Doc, src: Doc, marker: string)
    requires "id" in src && "digest" in src
  {
    HasValue(ref, "id", src["id"]) && HasValue(ref, "digest", src["digest"]) && marker !in ref
  }

  /** The statement for a single-valued reference field: filter on id, digest
      and the missing marker, then overwrite the whole field with `src`. */
  function ReferenceUpdate(field: RefField, marker: string, src: Doc): (r: Result<UpdateMany, Error>)
    ensures r.Success? <==> "id" in src && "digest" in src
    ensures "id" !in src ==> r == Failure(MissingField("id"))
    ensures "id" in src && "digest" !in src ==> r == Failure(MissingField("digest"))
    ensures r.Success? ==>
      forall run :: UpdateRun(r.value, run) ==
        (if Unresolved(RefDoc(run, field), src, marker) then SetRef(run, field, src) else run)
  {
    if "id" !in src then Failure(MissingField("id"))
    else if "digest" !in src then Failure(MissingField("digest"))
    else
      var u := UpdateMany(
        [Clause(Ref(field, "id"), Equals(src["id"])),
         Clause(Ref(field, "digest"), Equals(src["digest"])),
         Clause(Ref(field, marker), NotExists)],
        Whole(field), src, []);
      assert forall run ::
          UpdateRun(u, run) ==
          (if Unresolved(RefDoc(run, field), src, marker) then SetRef(run, field, src) else run)
      by {
        forall run: RunDoc ensures UpdateRun(u, run) ==
          if Unresolved(RefDoc(run, field), src, marker) then SetRef(run, field, src) else run
        {
          assert FilterMatches(u.filter, run) == Unresolved(RefDoc(run, field), src, marker) by {
            assert u.filter[0] == Clause(Ref(field, "id"), Equals(src["id"]));
            assert u.filter[1] == Clause(Ref(field, "digest"), Equals(src["digest"]));
            assert u.filter[2] == Clause(Ref(field, marker), NotExists);
          }
        }
      }
      Success(u)
  }

  /** The problem statement overwrites `problem` with the source problem on
      exactly the runs whose problem reference is an unresolved reference to
      this version, and changes nothing else. */
  function DenormalizeProblemOnAllRuns(problem: Doc): (r: Result<UpdateMany, Error>)
    ensures r.Success? <==> "id" in problem && "digest" in problem
    ensures "id" !in problem ==> r == Failure(MissingField("id"))
    ensures "id" in problem && "digest" !in problem ==> r == Failure(MissingField("digest"))
    ensures r.Success? ==>
      forall run :: UpdateRun(r.value, run) ==
        (if Unresolved(run.problem, problem, ProblemMarker) then run.(problem := problem) else run)
  {
    ReferenceUpdate(ProblemField, ProblemMarker, problem)
  }

  /** The pipeline statement: as the problem statement, on `pipeline`, with
      `schema` as the marker. */
  function DenormalizePipelineOnAllRuns(pipeline: Doc): (r: Result<UpdateMany, Error>)
    ensures r.Success? <==> "id" in pipeline && "digest" in pipeline
    ensures "id" !in pipeline ==> r == Failure(MissingField("id"))
    ensures "id" in pipeline && "digest" !in pipeline ==> r == Failure(MissingField("digest"))
    ensures r.Success? ==>
      forall run :: UpdateRun(r.value, run) ==
        (if Unresolved(run.pipeline, pipeline, PipelineMarker) then run.(pipeline := pipeline) else run)
  {
    ReferenceUpdate(PipelineField, PipelineMarker, pipeline)
  }

  /** The dataset filter as MongoDB reads the three clauses on the array:
      some element has the id, some element (maybe another) has the digest,
      and no element has the marker. */
  predicate DatasetFilter(ds: seq<Doc>, src: Doc)
    requires "id" in src && "digest" in src
  {
    && (exists i :: 0 <= i < |ds| && HasValue(ds[i], "id", src["id"]))
    && (exists j :: 0 <= j < |ds| && HasValue(ds[j], "digest", src["digest"]))
    && (forall k :: 0 <= k < |ds| ==> DatasetMarker !in ds[k])
  }

  /** The element refers to `src`'s version. */
  predicate SameVersion(e: Doc, src: Doc)
    requires "id" in src && "digest" in src
  {
    HasValue(e, "id", src["id"]) && HasValue(e, "digest", src["digest"])
  }

  /** Every element that refers to `src`'s version replaced by `src`. */
  function FillMatching(ds: seq<Doc>, src: Doc): (r: seq<Doc>)
    requires "id" in src && "digest" in src
    ensures |r| == |ds|
    ensures forall i :: 0 <= i < |ds| ==> (SameVersion(ds[i], src) ==> r[i] == src) && (!SameVersion(ds[i], src) ==> r[i] == ds[i])
  {
    if |ds| == 0 then []
    else [if SameVersion(ds[0], src) then src else ds[0]] + FillMatching(ds[1..], src)
  }

  /** The dataset statement: on a run the filter selects, every dataset
      element with the source's id and digest becomes the source document. */
  function DenormalizeDatasetOnAllRuns(dataset: Doc): (r: Result<UpdateMany, Error>)
    ensures r.Success? <==> "id" in dataset && "digest" in dataset
    ensures "id" !in dataset ==> r == Failure(MissingField("id"))
    ensures "id" in dataset && "digest" !in dataset ==> r == Failure(MissingField("digest"))
    ensures r.Success? ==>
      forall run :: UpdateRun(r.value, run) ==
        (if DatasetFilter(run.datasets, dataset) then run.(datasets := FillMatching(run.datasets, dataset)) else run)
  {
    if "id" !in dataset then Failure(MissingField("id"))
    else if "digest" !in dataset then Failure(MissingField("digest"))
    else
      assert forall run ::
          UpdateRun(DatasetStatement(dataset), run) ==
          (if DatasetFilter(run.datasets, dataset) then run.(datasets := FillMatching(run.datasets, dataset)) else run)
      by {
        forall run: RunDoc ensures UpdateRun(DatasetStatement(dataset), run) ==
          if DatasetFilter(run.datasets, dataset) then run.(datasets := FillMatching(run.datasets, dataset)) else run
        {
          DatasetStatementOnRun(dataset, run);
        }
      }
      Success(DatasetStatement(dataset))
  }

  /** The statement `denormalize_dataset_on_all_runs` builds from a source
      that has `id` and `digest`. */
  function DatasetStatement(dataset: Doc): UpdateMany
    requires "id" in dataset && "digest" in dataset
  {
    UpdateMany(
      [Clause(InDatasets("id"), Equals(dataset["id"])),
       Clause(InDatasets("digest"), Equals(dataset["digest"])),
       Clause(InDatasets(DatasetMarker), NotExists)],
      MatchedDatasets, dataset,
      [("id", dataset["id"]), ("digest", dataset["digest"])])
  }

  /** The `$and` of three clauses. */
  lemma FilterOfThree(filter: seq<Clause>, run: RunDoc)
    requires |filter| == 3
    ensures FilterMatches(filter, run) <==>
      ClauseHolds(filter[0], run) && ClauseHolds(filter[1], run) && ClauseHolds(filter[2], run)
  {
  }

  /** The dataset statement's filter is `DatasetFilter`. */
  lemma DatasetFilterMeaning(src: Doc, run: RunDoc)
    requires "id" in src && "digest" in src
    ensures FilterMatches(DatasetStatement(src).filter, run) == DatasetFilter(run.datasets, src)
  {
    FilterOfThree(DatasetStatement(src).filter, run);
  }

  /** The array filter selects exactly the elements that refer to the source's version. */
  lemma DatasetElementsSelected(src: Doc, e: Doc)
    requires "id" in src && "digest" in src
    ensures ElementSelected(DatasetStatement(src).arrayFilter, e) == SameVersion(e, src)
  {
    var af := DatasetStatement(src).arrayFilter;
    assert af[0] == ("id", src["id"]) && af[1] == ("digest", src["digest"]);
  }

  lemma DatasetStatementOnRun(src: Doc, run: RunDoc)
    requires "id" in src && "digest" in src
    ensures UpdateRun(DatasetStatement(src), run) ==
      (if DatasetFilter(run.datasets, src) then run.(datasets := FillMatching(run.datasets, src)) else run)
  {
    DatasetFilterMeaning(src, run);
    var ds := run.datasets;
    forall i | 0 <= i < |ds| ensures ElementSelected(DatasetStatement(src).arrayFilter, ds[i]) == SameVersion(ds[i], src) {
      DatasetElementsSelected(src, ds[i]);
    }
  }

  // ---------------------------------------------------------------------
  // Properties of the statements on a whole collection

  /** The problem statement resolves unresolved references to its version,
      leaves a run alone when the digest differs or `name` is already there
      (even if that copy is stale), and touches only the `problem` slot. */
  lemma ProblemStatementEffect(problem: Doc, runs: seq<RunDoc>)
    requires "id" in problem && "digest" in problem
    ensures DenormalizeProblemOnAllRuns(problem).Success?
    ensures var out := Apply(DenormalizeProblemOnAllRuns(problem).value, runs);
      && |out| == |runs|
      && (forall i :: 0 <= i < |runs| && HasValue(runs[i].problem, "id", problem["id"])
            && HasValue(runs[i].problem, "digest", problem["digest"]) && ProblemMarker !in runs[i].problem
            ==> out[i].problem == problem)
      && (forall i :: 0 <= i < |runs| && !HasValue(runs[i].problem, "digest", problem["digest"]) ==> out[i] == runs[i])
      && (forall i :: 0 <= i < |runs| && ProblemMarker in runs[i].problem ==> out[i] == runs[i])
      && (forall i :: 0 <= i < |runs| ==>
            out[i].pipeline == runs[i].pipeline && out[i].datasets == runs[i].datasets && out[i].others == runs[i].others)
  {
    var u := DenormalizeProblemOnAllRuns(problem).value;
    forall i | 0 <= i < |runs| ensures Apply(u, runs)[i] == UpdateRun(u, runs[i]) { }
  }

  /** The pipeline statement: the same with `schema` as the marker, so a
      pipeline reference that has `schema` is never overwritten. */
  lemma PipelineStatementEffect(pipeline: Doc, runs: seq<RunDoc>)
    requires "id" in pipeline && "digest" in pipeline
    ensures DenormalizePipelineOnAllRuns(pipeline).Success?
    ensures var out := Apply(DenormalizePipelineOnAllRuns(pipeline).value, runs);
      && |out| == |runs|
      && (forall i :: 0 <= i < |runs| && HasValue(runs[i].pipeline, "id", pipeline["id"])
            && HasValue(runs[i].pipeline, "digest", pipeline["digest"]) && PipelineMarker !in runs[i].pipeline
            ==> out[i].pipeline == pipeline)
      && (forall i :: 0 <= i < |runs| && !HasValue(runs[i].pipeline, "digest", pipeline["digest"]) ==> out[i] == runs[i])
      && (forall i :: 0 <= i < |runs| && PipelineMarker in runs[i].pipeline ==> out[i] == runs[i])
      && (forall i :: 0 <= i < |runs| ==>
            out[i].problem == runs[i].problem && out[i].datasets == runs[i].datasets && out[i].others == runs[i].others)
  {
    var u := DenormalizePipelineOnAllRuns(pipeline).value;
    forall i | 0 <= i < |runs| ensures Apply(u, runs)[i] == UpdateRun(u, runs[i]) { }
  }

  /** The dataset statement: on a selected run exactly the elements with the
      source's id and digest are replaced, the others stay in place; a run
      in which some element already has `name` is left alone; and only the
      `datasets` slot changes. */
  lemma DatasetStatementEffect(dataset: Doc, runs: seq<RunDoc>)
    requires "id" in dataset && "digest" in dataset
    ensures DenormalizeDatasetOnAllRuns(dataset).Success?
    ensures var out := Apply(DenormalizeDatasetOnAllRuns(dataset).value, runs);
      && |out| == |runs|
      && (forall i :: 0 <= i < |runs| ==> |out[i].datasets| == |runs[i].datasets|)
      && (forall i, j :: 0 <= i < |runs| && DatasetFilter(runs[i].datasets, dataset) && 0 <= j < |runs[i].datasets| ==>
            out[i].datasets[j] == if SameVersion(runs[i].datasets[j], dataset) then dataset else runs[i].datasets[j])
      && (forall i, j :: 0 <= i < |runs| && 0 <= j < |runs[i].datasets| && DatasetMarker in runs[i].datasets[j] ==>
            out[i] == runs[i])
      && (forall i :: 0 <= i < |runs| ==>
            out[i].problem == runs[i].problem && out[i].pipeline == runs[i].pipeline && out[i].others == runs[i].others)
  {
    var u := DenormalizeDatasetOnAllRuns(dataset).value;
    forall i | 0 <= i < |runs| ensures Apply(u, runs)[i] == UpdateRun(u, runs[i]) { }
  }

  /** A source collection name that has a builder. */
  datatype Index = Problems | Datasets | Pipelines | PipelineRuns

  type SourceIndex = i: Index | i != PipelineRuns witness Problems

  /** The builder `extract_denormalized` passes for each kind. */
  function Build(kind: SourceIndex, src: Doc): Result<UpdateMany, Error>
  {
    match kind
    case Problems => DenormalizeProblemOnAllRuns(src)
    case Datasets => DenormalizeDatasetOnAllRuns(src)
    case Pipelines => DenormalizePipelineOnAllRuns(src)
  }

  /** Every statement any builder produces is idempotent on a collection:
      applying it a second time changes nothing. */
  lemma StatementIdempotent(kind: SourceIndex, src: Doc, runs: seq<RunDoc>)
    requires Build(kind, src).Success?
    ensures Apply(Build(kind, src).value, Apply(Build(kind, src).value, runs)) == Apply(Build(kind, src).value, runs)
  {
    var u := Build(kind, src).value;
    var once := Apply(u, runs);
    forall i | 0 <= i < |runs| ensures UpdateRun(u, once[i]) == once[i] {
      assert once[i] == UpdateRun(u, runs[i]);
      match kind
      case Problems => ProblemRunIdempotent(src, runs[i]);
      case Datasets => DatasetRunIdempotent(src, runs[i]);
      case Pipelines => PipelineRunIdempotent(src, runs[i]);
    }
  }

  lemma ProblemRunIdempotent(src: Doc, run: RunDoc)
    requires "id" in src && "digest" in src
    ensures var u := DenormalizeProblemOnAllRuns(src).value; UpdateRun(u, UpdateRun(u, run)) == UpdateRun(u, run)
  {
    var u := DenormalizeProblemOnAllRuns(src).value;
    ProblemRunEffect(src, run);
    ProblemRunEffect(src, UpdateRun(u, run));
  }

  lemma PipelineRunIdempotent(src: Doc, run: RunDoc)
    requires "id" in src && "digest" in src
    ensures var u := DenormalizePipelineOnAllRuns(src).value; UpdateRun(u, UpdateRun(u, run)) == UpdateRun(u, run)
  {
    var u := DenormalizePipelineOnAllRuns(src).value;
    PipelineRunEffect(src, run);
    PipelineRunEffect(src, UpdateRun(u, run));
  }

  lemma DatasetRunIdempotent(src: Doc, run: RunDoc)
    requires "id" in src && "digest" in src
    ensures var u := DatasetStatement(src); UpdateRun(u, UpdateRun(u, run)) == UpdateRun(u, run)
  {
    DatasetStatementOnRun(src, run);
    if DatasetFilter(run.datasets, src) {
      var filled := FillMatching(run.datasets, src);
      DatasetStatementOnRun(src, run.(datasets := filled));
      FillTwice(run.datasets, src);
    }
  }

  /** Filling a second time changes nothing. */
  lemma FillTwice(ds: seq<Doc>, src: Doc)
    requires "id" in src && "digest" in src
    ensures FillMatching(FillMatching(ds, src), src) == FillMatching(ds, src)
  {
    var filled := FillMatching(ds, src);
    var twice := FillMatching(filled, src);
    assert |twice| == |filled|;
    forall i | 0 <= i < |filled| ensures twice[i] == filled[i] {
      assert filled[i] == if SameVersion(ds[i], src) then src else ds[i];
    }
  }

  /** Once a dataset statement whose source has `name` has filled in one
      element of a run, no dataset statement selects that run any more: the
      remaining references of a run with several datasets stay unresolved. */
  lemma DatasetFillBlocksOthers(first: Doc, second: Doc, run: RunDoc)
    requires "id" in first && "digest" in first && "id" in second && "digest" in second
    requires DatasetMarker in first
    requires UpdateRun(DenormalizeDatasetOnAllRuns(first).value, run) != run
    ensures var after := UpdateRun(DenormalizeDatasetOnAllRuns(first).value, run);
      UpdateRun(DenormalizeDatasetOnAllRuns(second).value, after) == after
  {
    DatasetStatementOnRun(first, run);
    var after := UpdateRun(DenormalizeDatasetOnAllRuns(first).value, run);
    DatasetStatementOnRun(second, after);
    FillBlocksFilter(first, second, run.datasets);
  }

  /** Filling in a source that has the marker, if it changes anything,
      leaves datasets that no dataset filter selects. */
  lemma FillBlocksFilter(first: Doc, second: Doc, ds: seq<Doc>)
    requires "id" in first && "digest" in first && "id" in second && "digest" in second
    requires DatasetMarker in first
    requires FillMatching(ds, first) != ds
    ensures !DatasetFilter(FillMatching(ds, first), second)
  {
    if forall j :: 0 <= j < |ds| ==> !SameVersion(ds[j], first) {
      FillNothing(ds, first);
    } else {
      var j :| 0 <= j < |ds| && SameVersion(ds[j], first);
      FillBlocks(ds, first, second, j);
    }
  }

  /** No element refers to the source: filling changes nothing. */
  lemma FillNothing(ds: seq<Doc>, src: Doc)
    requires "id" in src && "digest" in src
    requires forall j :: 0 <= j < |ds| ==> !SameVersion(ds[j], src)
    ensures FillMatching(ds, src) == ds
  {
  }

  /** A filled-in element that has the marker defeats every dataset filter. */
  lemma FillBlocks(ds: seq<Doc>, first: Doc, second: Doc, j: nat)
    requires "id" in first && "digest" in first && "id" in second && "digest" in second
    requires DatasetMarker in first
    requires j < |ds| && SameVersion(ds[j], first)
    ensures !DatasetFilter(FillMatching(ds, first), second)
  {
    assert FillMatching(ds, first)[j] == first;
  }

  /** The dataset filter is not an element match: a run in which one element
      has the id and another the digest is selected although no element
      refers to the source, and then nothing is written. */
  lemma DatasetFilterSplitAcrossElements()
    ensures var src := map["id" := Str("d1"), "digest" := Str("v1"), "name" := Str("iris")];
      var a := map["id" := Str("d1"), "digest" := Str("v0")];
      var b := map["id" := Str("d2"), "digest" := Str("v1")];
      var run := RunDoc(map[], map[], [a, b], map[]);
      && DenormalizeDatasetOnAllRuns(src).Success?
      && FilterMatches(DenormalizeDatasetOnAllRuns(src).value.filter, run)
      && !SameVersion(a, src) && !SameVersion(b, src)
      && UpdateRun(DenormalizeDatasetOnAllRuns(src).value, run) == run
  {
    var src := map["id" := Str("d1"), "digest" := Str("v1"), "name" := Str("iris")];
    var a := map["id" := Str("d1"), "digest" := Str("v0")];
    var b := map["id" := Str("d2"), "digest" := Str("v1")];
    var run := RunDoc(map[], map[], [a, b], map[]);
    assert HasValue(run.datasets[0], "id", src["id"]);
    assert HasValue(run.datasets[1], "digest", src["digest"]);
    assert DatasetFilter(run.datasets, src);
    DatasetFilterMeaning(src, run);
    DatasetStatementOnRun(src, run);
    FillNothing(run.datasets, src);
  }

  /** The scenario of a problem `p1` at digest `d1`: the run referring to
      `(p1, d1)` gets the full problem, the run referring to `(p1, d2)` does not. */
  lemma ProblemScenario()
    ensures var src := map["id" := Str("p1"), "digest" := Str("d1"), "name" := Str("Classify")];
      var r1 := RunDoc(map["id" := Str("p1"), "digest" := Str("d1")], map[], [], map[]);
      var r2 := RunDoc(map["id" := Str("p1"), "digest" := Str("d2")], map[], [], map[]);
      && DenormalizeProblemOnAllRuns(src).Success?
      && Apply(DenormalizeProblemOnAllRuns(src).value, [r1, r2]) == [r1.(problem := src), r2]
  {
    var src := map["id" := Str("p1"), "digest" := Str("d1"), "name" := Str("Classify")];
    var r1 := RunDoc(map["id" := Str("p1"), "digest" := Str("d1")], map[], [], map[]);
    var r2 := RunDoc(map["id" := Str("p1"), "digest" := Str("d2")], map[], [], map[]);
    assert "id" in src && "digest" in src;
    var u := DenormalizeProblemOnAllRuns(src).value;
    assert Unresolved(r1.problem, src, ProblemMarker);
    assert src["digest"] == Str("d1") && r2.problem["digest"] == Str("d2");
    assert !Unresolved(r2.problem, src, ProblemMarker);
    ProblemRunEffect(src, r1);
    ProblemRunEffect(src, r2);
    var out := Apply(u, [r1, r2]);
    assert out[0] == UpdateRun(u, r1) && out[1] == UpdateRun(u, r2);
  }

  /** Equality is MongoDB's, not exact: a source whose `id` is null
      resolves a reference that has no `id`. */
  lemma NullIdMatchesMissingId()
    ensures var src := map["id" := Null, "digest" := Str("d1"), "name" := Str("n")];
      var run := RunDoc(map["digest" := Str("d1")], map[], [], map[]);
      && DenormalizeProblemOnAllRuns(src).Success?
      && UpdateRun(DenormalizeProblemOnAllRuns(src).value, run) == run.(problem := src)
  {
    var src := map["id" := Null, "digest" := Str("d1"), "name" := Str("n")];
    var ref := map["digest" := Str("d1")];
    assert "id" in src && "digest" in src && src["id"] == Null && src["digest"] == Str("d1");
    assert "id" !in ref && ProblemMarker !in ref && ref["digest"] == Str("d1");
    assert Unresolved(ref, src, ProblemMarker);
    ProblemRunEffect(src, RunDoc(ref, map[], [], map[]));
  }

  /** A reference whose `id` is an array holding the source's id is
      resolved too. */
  lemma ArrayIdMatchesElement()
    ensures var src := map["id" := Str("p1"), "digest" := Str("d1"), "name" := Str("n")];
      var run := RunDoc(map["id" := Array([Str("p1")]), "digest" := Str("d1")], map[], [], map[]);
      && DenormalizeProblemOnAllRuns(src).Success?
      && UpdateRun(DenormalizeProblemOnAllRuns(src).value, run) == run.(problem := src)
  {
    var src := map["id" := Str("p1"), "digest" := Str("d1"), "name" := Str("n")];
    var ref := map["id" := Array([Str("p1")]), "digest" := Str("d1")];
    assert "id" in src && "digest" in src && src["id"] == Str("p1") && src["digest"] == Str("d1");
    assert ProblemMarker !in ref && ref["digest"] == Str("d1");
    assert ref["id"].items[0] == Str("p1");
    assert Unresolved(ref, src, ProblemMarker);
    ProblemRunEffect(src, RunDoc(ref, map[], [], map[]));
  }

  /** The problem statement's effect on one run. */
  lemma ProblemRunEffect(src: Doc, run: RunDoc)
    requires "id" in src && "digest" in src
    ensures UpdateRun(DenormalizeProblemOnAllRuns(src).value, run) ==
      (if Unresolved(run.problem, src, ProblemMarker) then run.(problem := src) else run)
  {
  }

  /** The pipeline statement's effect on one run. */
  lemma PipelineRunEffect(src: Doc, run: RunDoc)
    requires "id" in src && "digest" in src
    ensures UpdateRun(DenormalizePipelineOnAllRuns(src).value, run) ==
      (if Unresolved(run.pipeline, src, PipelineMarker) then run.(pipeline := src) else run)
  {
  }

  // ---------------------------------------------------------------------
  // Kind selection

  function IndexName(i: Index): string
  {
    match i
    case Problems => "problems"
    case Datasets => "datasets"
    case Pipelines => "pipelines"
    case PipelineRuns => "pipeline_runs"
  }

  /** `Index(name)`: the index whose value is `name`, if any. */
  function ParseIndex(name: string): (r: Option<Index>)
    ensures forall i :: r == Some(i) <==> IndexName(i) == name
  {
    if name == "problems" then Some(Problems)
    else if name == "datasets" then Some(Datasets)
    else if name == "pipelines" then Some(Pipelines)
    else if name == "pipeline_runs" then Some(PipelineRuns)
    else None
  }

  /** `{Index(name) for name in names}`: fails on the first name that is
      not an index value. */
  function ParseIndexes(names: seq<string>): (r: Result<set<Index>, Error>)
    ensures r.Failure? <==> exists n :: n in names && ParseIndex(n).None?
    ensures r.Failure? ==> r.error.UnknownIndex? && r.error.name in names && ParseIndex(r.error.name).None?
    ensures r.Failure? ==>
      exists i :: 0 <= i < |names| && names[i] == r.error.name && (forall j :: 0 <= j < i ==> ParseIndex(names[j]).Some?)
    ensures r.Success? ==> forall i :: i in r.value <==> IndexName(i) in names
  {
    if |names| == 0 then Success({})
    else
      match ParseIndex(names[0])
      case None => Failure(UnknownIndex(names[0]))
      case Some(i) =>
        match ParseIndexes(names[1..])
        case Failure(e) =>
          assert exists i :: 0 <= i < |names| && names[i] == e.name && (forall j :: 0 <= j < i ==> ParseIndex(names[j]).Some?) by {
            var k :| 0 <= k < |names[1..]| && names[1..][k] == e.name
              && (forall j :: 0 <= j < k ==> ParseIndex(names[1..][j]).Some?);
            forall j | 0 <= j < k + 1 ensures ParseIndex(names[j]).Some? {
              if j > 0 { assert names[j] == names[1..][j - 1]; }
            }
            assert names[k + 1] == e.name;
          }
          Failure(e)
        case Success(rest) =>
          assert names == [names[0]] + names[1..];
          Success({i} + rest)
  }

  /** The kinds `extract_denormalized` selects: all three when no name is
      given, otherwise the named ones. */
  function ToDenormalize(names: seq<string>): Result<set<Index>, Error>
  {
    if |names| == 0 then Success({Problems, Datasets, Pipelines}) else ParseIndexes(names)
  }

  function Rank(k: SourceIndex): nat
  {
    match k
    case Problems => 0
    case Datasets => 1
    case Pipelines => 2
  }

  /** The selected kinds in processing order: problems, datasets, pipelines. */
  function Ordered(sel: set<Index>): (r: seq<SourceIndex>)
    ensures forall k: SourceIndex :: k in r <==> k in sel
    ensures forall a, b :: 0 <= a < b < |r| ==> Rank(r[a]) < Rank(r[b])
    ensures {Problems, Datasets, Pipelines} <= sel ==> r == [Problems, Datasets, Pipelines]
  {
    IfSelected(sel, Problems) + IfSelected(sel, Datasets) + IfSelected(sel, Pipelines)
  }

  /** `[k]` when `k` is selected, nothing otherwise. */
  function IfSelected(sel: set<Index>, k: SourceIndex): seq<SourceIndex>
  {
    if k in sel then [k] else []
  }

  /** The kinds processed, in the order the orchestrator processes them. */
  function Schedule(names: seq<string>): (r: Result<seq<SourceIndex>, Error>)
    ensures |names| == 0 ==> r == Success([Problems, Datasets, Pipelines])
    ensures r.Failure? <==> exists n :: n in names && ParseIndex(n).None?
    ensures r.Success? && |names| > 0 ==> forall k: SourceIndex :: k in r.value <==> IndexName(k) in names
    ensures r.Success? ==> forall a, b :: 0 <= a < b < |r.value| ==> Rank(r.value[a]) < Rank(r.value[b])
  {
    match ToDenormalize(names)
    case Failure(e) => Failure(e)
    case Success(sel) => Success(Ordered(sel))
  }

  // ---------------------------------------------------------------------
  // Batch driver and orchestrator

  /** The statements for a list of source documents, built front to back;
      the first document that cannot be built stops the list. */
  function BuildAll(kind: SourceIndex, docs: seq<Doc>): Result<seq<UpdateMany>, Error>
  {
    if |docs| == 0 then Success([])
    else
      match Build(kind, docs[0])
      case Failure(e) => Failure(e)
      case Success(u) =>
        match BuildAll(kind, docs[1..])
        case Failure(e) =>
          Failure(e)
        case Success(rest) =>
          Success([u] + rest)
  }

  /** One statement per document, in document order; the list fails exactly
      when some document cannot be built, with the first such error. */
  lemma {:induction false} BuildAllSpec(kind: SourceIndex, docs: seq<Doc>)
    ensures var r := BuildAll(kind, docs);
      && (r.Success? ==> |r.value| == |docs| && forall i :: 0 <= i < |docs| ==> Build(kind, docs[i]) == Success(r.value[i]))
      && (r.Failure? <==> exists i :: 0 <= i < |docs| && Build(kind, docs[i]).Failure?)
      && (r.Failure? ==>
            exists i :: 0 <= i < |docs| && Build(kind, docs[i]) == Failure(r.error)
              && forall j :: 0 <= j < i ==> Build(kind, docs[j]).Success?)
  {
    if |docs| > 0 {
      BuildAllSpec(kind, docs[1..]);
      var r := BuildAll(kind, docs);
      if Build(kind, docs[0]).Success? {
        if r.Failure? {
          var i :| 0 <= i < |docs[1..]| && Build(kind, docs[1..][i]) == Failure(r.error)
            && forall j :: 0 <= j < i ==> Build(kind, docs[1..][j]).Success?;
          assert Build(kind, docs[i + 1]) == Failure(r.error);
          assert forall j :: 0 <= j < i + 1 ==> Build(kind, docs[j]).Success? by {
            forall j | 0 <= j < i + 1 ensures Build(kind, docs[j]).Success? {
              if j > 0 { assert docs[j] == docs[1..][j - 1]; }
            }
          }
        } else {
          forall i | 0 <= i < |docs| ensures Build(kind, docs[i]).Success? {
            if i > 0 { assert docs[i] == docs[1..][i - 1]; }
          }
        }
      }
    }
  }

  lemma {:induction false} BuildAllAppend(kind: SourceIndex, xs: seq<Doc>, ys: seq<Doc>)
    requires BuildAll(kind, xs).Success? && BuildAll(kind, ys).Success?
    ensures BuildAll(kind, xs + ys) == Success(BuildAll(kind, xs).value + BuildAll(kind, ys).value)
  {
    if |xs| == 0 {
      assert xs + ys == ys;
      assert BuildAll(kind, xs).value == [];
      assert BuildAll(kind, xs).value + BuildAll(kind, ys).value == BuildAll(kind, ys).value;
    } else {
      assert (xs + ys)[0] == xs[0];
      assert (xs + ys)[1..] == xs[1..] + ys;
      match Build(kind, xs[0])
      case Success(u) =>
        match BuildAll(kind, xs[1..])
        case Success(rest) =>
          BuildAllAppend(kind, xs[1..], ys);
          var v := BuildAll(kind, ys).value;
          assert BuildAll(kind, xs + ys) == Success([u] + (rest + v));
          assert [u] + (rest + v) == ([u] + rest) + v;
    }
  }

  /** A slice that fails to build makes the whole list fail. */
  lemma BuildAllFailsWithSlice(kind: SourceIndex, docs: seq<Doc>, lo: nat, hi: nat)
    requires lo <= hi <= |docs|
    requires BuildAll(kind, docs[lo..hi]).Failure?
    ensures BuildAll(kind, docs).Failure?
  {
    BuildAllSpec(kind, docs[lo..hi]);
    BuildAllSpec(kind, docs);
    var i :| 0 <= i < |docs[lo..hi]| && Build(kind, docs[lo..hi][i]).Failure?;
    assert docs[lo + i] == docs[lo..hi][i];
  }

  /** Writing the next batch extends the written prefix of the source list. */
  lemma BatchStep(kind: SourceIndex, src: seq<Doc>, done: nat, end: nat, runs: seq<RunDoc>)
    requires done <= end <= |src|
    requires BuildAll(kind, src[..done]).Success? && BuildAll(kind, src[done..end]).Success?
    ensures BuildAll(kind, src[..end]).Success?
    ensures BulkWrite(BuildAll(kind, src[..end]).value, runs)
         == BulkWrite(BuildAll(kind, src[done..end]).value, BulkWrite(BuildAll(kind, src[..done]).value, runs))
  {
    BuildAllAppend(kind, src[..done], src[done..end]);
    assert src[..done] + src[done..end] == src[..end];
    BulkWriteAppend(BuildAll(kind, src[..done]).value, BuildAll(kind, src[done..end]).value, runs);
  }

  /** The lab's database: the three source collections, which only the
      ingestion process writes, and the pipeline-run collection that
      denormalization updates in place. */
  class AmlDb {
    const problems: seq<Doc>
    const datasets: seq<Doc>
    const pipelines: seq<Doc>
    var pipelineRuns: seq<RunDoc>

    constructor (problems: seq<Doc>, datasets: seq<Doc>, pipelines: seq<Doc>, pipelineRuns: seq<RunDoc>)
      ensures this.problems == problems && this.datasets == datasets && this.pipelines == pipelines
      ensures this.pipelineRuns == pipelineRuns
    {
      this.problems := problems;
      this.datasets := datasets;
      this.pipelines := pipelines;
      this.pipelineRuns := pipelineRuns;
    }

    function Collection(kind: SourceIndex): seq<Doc>
    {
      match kind
      case Problems => problems
      case Datasets => datasets
      case Pipelines => pipelines
    }

    /** The whole effect of denormalizing the given kinds in order, from `runs`:
        each kind's statements written in one go; a kind with a document that
        cannot be built stops with that error. */
    function DenormalizeKinds(kinds: seq<SourceIndex>, runs: seq<RunDoc>): Result<seq<RunDoc>, Error>
    {
      if |kinds| == 0 then Success(runs)
      else
        match BuildAll(kinds[0], Collection(kinds[0]))
        case Failure(e) => Failure(e)
        case Success(stmts) => DenormalizeKinds(kinds[1..], BulkWrite(stmts, runs))
    }

    lemma {:induction false} DenormalizeKindsAppend(k1: seq<SourceIndex>, k2: seq<SourceIndex>, runs: seq<RunDoc>)
      ensures DenormalizeKinds(k1 + k2, runs) ==
        match DenormalizeKinds(k1, runs)
        case Failure(e) => Failure(e)
        case Success(mid) => DenormalizeKinds(k2, mid)
    {
      if |k1| == 0 {
        assert k1 + k2 == k2;
      } else {
        assert (k1 + k2)[0] == k1[0];
        assert (k1 + k2)[1..] == k1[1..] + k2;
        match BuildAll(k1[0], Collection(k1[0]))
        case Failure(e) =>
        case Success(stmts) => DenormalizeKindsAppend(k1[1..], k2, BulkWrite(stmts, runs));
      }
    }

    /** `bulk_read_write`: reads the source collection in batches of
        `batchSize`, builds one statement per document, and writes each
        batch's statements in one bulk write. Batches already written stay
        written when a later batch has a document that cannot be built. */
    method BulkReadWrite(kind: SourceIndex, batchSize: nat) returns (r: Outcome<Error>)
      requires batchSize > 0
      modifies this`pipelineRuns
      ensures r.Pass? <==> BuildAll(kind, Collection(kind)).Success?
      ensures r.Pass? ==> pipelineRuns == BulkWrite(BuildAll(kind, Collection(kind)).value, old(pipelineRuns))
      ensures r.Fail? ==> exists batches :: WrittenBatches(kind, batchSize, batches, old(pipelineRuns), pipelineRuns)
    {
      var src := Collection(kind);
      var done := 0;
      ghost var batches := 0;
      assert src[..0] == [];
      while done < |src|
        invariant 0 <= done <= |src|
        invariant done == |src| || done == batches * batchSize
        invariant BuildAll(kind, src[..done]).Success?
        invariant pipelineRuns == BulkWrite(BuildAll(kind, src[..done]).value, old(pipelineRuns))
      {
        var end := if done + batchSize < |src| then done + batchSize else |src|;
        var batch := BuildAll(kind, src[done..end]);
        if batch.Failure? {
          BuildAllFailsWithSlice(kind, src, done, end);
          assert WrittenBatches(kind, batchSize, batches, old(pipelineRuns), pipelineRuns);
          r := Fail(batch.error);
          return;
        }
        BatchStep(kind, src, done, end, old(pipelineRuns));
        pipelineRuns := BulkWrite(batch.value, pipelineRuns);
        done := end;
        batches := batches + 1;
        assert batches * batchSize == (batches - 1) * batchSize + batchSize;
      }
      assert src[..done] == src;
      r := Pass;
    }

    /** The first `batches` whole batches of source documents were built and
        written, and nothing else; the next batch has a document that cannot
        be built. */
    ghost predicate WrittenBatches(kind: SourceIndex, batchSize: nat, batches: nat, before: seq<RunDoc>, after: seq<RunDoc>)
    {
      var src, done := Collection(kind), batches * batchSize;
      && done < |src|
      && BuildAll(kind, src[..done]).Success?
      && after == BulkWrite(BuildAll(kind, src[..done]).value, before)
      && BuildAll(kind, src[done..if done + batchSize < |src| then done + batchSize else |src|]).Failure?
    }

    /** A run of `kinds` from `before` that stopped part-way: the kinds before
        the failing one were fully written, and of the failing one the whole
        batches before its first failing batch. */
    ghost predicate StoppedIn(kinds: seq<SourceIndex>, batchSize: nat, before: seq<RunDoc>, after: seq<RunDoc>)
    {
      exists i, mid, batches :: 0 <= i < |kinds|
        && DenormalizeKinds(kinds[..i], before) == Success(mid)
        && WrittenBatches(kinds[i], batchSize, batches, mid, after)
    }
  }

  /** `extract_denormalized`: checks the index names before touching the
      database, then denormalizes problems, datasets and pipelines, in that
      order, each only if selected; the first failing kind stops the rest. */
  method ExtractDenormalized(db: AmlDb, indexNames: seq<string>, batchSize: nat) returns (r: Outcome<Error>)
    requires batchSize == 0 ==> Schedule(indexNames).Failure? || Schedule(indexNames).value == []
    modifies db`pipelineRuns
    ensures Schedule(indexNames).Failure? ==>
      r == Fail(Schedule(indexNames).error) && db.pipelineRuns == old(db.pipelineRuns)
    ensures Schedule(indexNames).Success? ==>
      (r.Pass? <==> db.DenormalizeKinds(Schedule(indexNames).value, old(db.pipelineRuns)).Success?)
    ensures r.Pass? ==>
      && Schedule(indexNames).Success?
      && db.DenormalizeKinds(Schedule(indexNames).value, old(db.pipelineRuns)) == Success(db.pipelineRuns)
    ensures r.Fail? && Schedule(indexNames).Success? ==>
      db.StoppedIn(Schedule(indexNames).value, batchSize, old(db.pipelineRuns), db.pipelineRuns)
  {
    var selected := ToDenormalize(indexNames);
    if selected.Failure? {
      return Fail(selected.error);
    }
    r := DenormalizeSelected(db, selected.value, batchSize);
  }

  /** The three kinds of `extract_denormalized` in order, each only if
      selected; the first failing kind stops the rest. */
  method DenormalizeSelected(db: AmlDb, sel: set<Index>, batchSize: nat) returns (r: Outcome<Error>)
    requires batchSize == 0 ==> Ordered(sel) == []
    modifies db`pipelineRuns
    ensures r.Pass? <==> db.DenormalizeKinds(Ordered(sel), old(db.pipelineRuns)).Success?
    ensures r.Pass? ==> db.DenormalizeKinds(Ordered(sel), old(db.pipelineRuns)) == Success(db.pipelineRuns)
    ensures r.Fail? ==> db.StoppedIn(Ordered(sel), batchSize, old(db.pipelineRuns), db.pipelineRuns)
  {
    ghost var start := db.pipelineRuns;
    ghost var done: seq<SourceIndex> := [];
    OrderedSplit(sel);
    var o;
    o, done := DenormalizeIfSelected(db, sel, Problems, batchSize, done, start);
    if o.Fail? {
      return o;
    }
    o, done := DenormalizeIfSelected(db, sel, Datasets, batchSize, done, start);
    if o.Fail? {
      return o;
    }
    o, done := DenormalizeIfSelected(db, sel, Pipelines, batchSize, done, start);
    r := o;
  }

  /** One kind of the orchestrator: its bulk pass runs only when the kind is
      selected. `done` holds the selected kinds before `k`, processed from
      `start`; a failure here fails the whole selection. */
  method DenormalizeIfSelected(db: AmlDb, sel: set<Index>, k: SourceIndex, batchSize: nat,
                               ghost done: seq<SourceIndex>, ghost start: seq<RunDoc>)
    returns (o: Outcome<Error>, ghost doneOut: seq<SourceIndex>)
    requires batchSize == 0 ==> k !in sel
    requires Ordered(sel) == done + IfSelected(sel, k) + RestAfter(sel, k)
    requires db.DenormalizeKinds(done, start) == Success(db.pipelineRuns)
    modifies db`pipelineRuns
    ensures doneOut == done + IfSelected(sel, k)
    ensures o.Pass? ==> db.DenormalizeKinds(doneOut, start) == Success(db.pipelineRuns)
    ensures o.Fail? ==> k in sel && db.DenormalizeKinds(Ordered(sel), start).Failure?
    ensures o.Fail? ==> db.StoppedIn(Ordered(sel), batchSize, start, db.pipelineRuns)
    ensures k !in sel ==> o == Pass && db.pipelineRuns == old(db.pipelineRuns)
  {
    doneOut := done;
    o := Pass;
    if k in sel {
      ghost var mid := db.pipelineRuns;
      o := db.BulkReadWrite(k, batchSize);
      db.DenormalizeKindsAppend(done, [k], start);
      doneOut := done + [k];
      db.DenormalizeKindsAppend(doneOut, RestAfter(sel, k), start);
      if o.Fail? {
        ghost var kinds := Ordered(sel);
        assert kinds[..|done|] == done && kinds[|done|] == k;
        ghost var batches :| db.WrittenBatches(k, batchSize, batches, mid, db.pipelineRuns);
        assert db.DenormalizeKinds(kinds[..|done|], start) == Success(mid);
        assert db.WrittenBatches(kinds[|done|], batchSize, batches, mid, db.pipelineRuns);
      }
    }
  }

  /** The selected kinds that come after `k` in processing order. */
  function RestAfter(sel: set<Index>, k: SourceIndex): seq<SourceIndex>
  {
    match k
    case Problems => IfSelected(sel, Datasets) + IfSelected(sel, Pipelines)
    case Datasets => IfSelected(sel, Pipelines)
    case Pipelines => []
  }

  /** The processing order split before and after each kind. */
  lemma OrderedSplit(sel: set<Index>)
    ensures Ordered(sel) == [] + IfSelected(sel, Problems) + RestAfter(sel, Problems)
    ensures Ordered(sel) == [] + IfSelected(sel, Problems) + IfSelected(sel, Datasets) + RestAfter(sel, Datasets)
    ensures Ordered(sel) == [] + IfSelected(sel, Problems) + IfSelected(sel, Datasets) + IfSelected(sel, Pipelines)
                            + RestAfter(sel, Pipelines)
  {
    var p, d, q := IfSelected(sel, Problems), IfSelected(sel, Datasets), IfSelected(sel, Pipelines);
    assert [] + p + (d + q) == p + d + q;
    assert [] + p + d + q + [] == p + d + q;
  }
}
