/** A pipeline-run entity: the run document reduced to its identity, state,
    scores and references, with the comparisons the analyses make between
    runs. How two scores, two references or two pipelines compare is not
    defined here; those comparisons are parameters. */
module PipelineRuns {
  import opened Results

  /** A score entry of `run.results.scores`. */
  datatype Score = Score(metric: string, value: real, normalized: Option<real>)

  /** A `{id, digest}` reference to a problem, dataset or pipeline document. */
  datatype DocumentReference = DocumentReference(id: string, digest: string)

  /** The fields of a pipeline-run document that the constructor reads;
      `scores` is absent when the document has no `run.results.scores` path. */
  datatype PipelineRunDict = PipelineRunDict(
    id: string,
    state: string,
    start: string,
    end: string,
    submitter: string,
    phase: string,
    scores: Option<seq<Score>>,
    datasets: seq<DocumentReference>,
    pipeline: DocumentReference,
    problem: DocumentReference)

  /** The scores of the document, none when the path is absent. */
  function InputScores(d: PipelineRunDict): seq<Score>
  {
    match d.scores
    case None => []
    case Some(s) => s
  }

  // ---------------------------------------------------------------------
  // Common scores

  /** `x` repeated `n` times. */
  function Repeat<T>(x: T, n: nat): (r: seq<T>)
    ensures |r| == n && forall k :: 0 <= k < n ==> r[k] == x
  {
    seq(n, _ => x)
  }

  /** How many scores of `b` the score `x` matches. */
  function MatchCount(x: Score, b: seq<Score>, same: (Score, Score, real) -> bool, tolerance: real): (n: nat)
    ensures n <= |b|
    ensures n == 0 <==> forall j :: 0 <= j < |b| ==> !same(x, b[j], tolerance)
  {
    if |b| == 0 then 0
    else
      assert forall j :: 0 <= j < |b| - 1 ==> b[..|b| - 1][j] == b[j];
      MatchCount(x, b[..|b| - 1], same, tolerance) + (if same(x, b[|b| - 1], tolerance) then 1 else 0)
  }

  /** The common scores of `a` with `b`: each score of `a`, in order, once
      per score of `b` it matches. */
  function CommonScores(a: seq<Score>, b: seq<Score>, same: (Score, Score, real) -> bool, tolerance: real): seq<Score>
  {
    if |a| == 0 then []
    else CommonScores(a[..|a| - 1], b, same, tolerance) + Repeat(a[|a| - 1], MatchCount(a[|a| - 1], b, same, tolerance))
  }

  /** The position in `a` each common score comes from. */
  ghost function CommonOrigins(a: seq<Score>, b: seq<Score>, same: (Score, Score, real) -> bool, tolerance: real): seq<nat>
  {
    if |a| == 0 then []
    else CommonOrigins(a[..|a| - 1], b, same, tolerance) + Repeat(|a| - 1, MatchCount(a[|a| - 1], b, same, tolerance))
  }

  /** Every common score is a score of `a`, taken in `a`'s order: the
      positions it comes from never decrease. */
  lemma {:induction false} CommonScoresFromFirst(a: seq<Score>, b: seq<Score>, same: (Score, Score, real) -> bool, tolerance: real)
    ensures var r, o := CommonScores(a, b, same, tolerance), CommonOrigins(a, b, same, tolerance);
      && |o| == |r|
      && (forall k :: 0 <= k < |r| ==> o[k] < |a| && r[k] == a[o[k]])
      && (forall k, l :: 0 <= k <= l < |o| ==> o[k] <= o[l])
  {
    if |a| != 0 {
      var init := a[..|a| - 1];
      CommonScoresFromFirst(init, b, same, tolerance);
      var r0, o0 := CommonScores(init, b, same, tolerance), CommonOrigins(init, b, same, tolerance);
      var n := MatchCount(a[|a| - 1], b, same, tolerance);
      var r, o := CommonScores(a, b, same, tolerance), CommonOrigins(a, b, same, tolerance);
      assert r == r0 + Repeat(a[|a| - 1], n);
      assert o == o0 + Repeat(|a| - 1, n);
      forall k | 0 <= k < |r| ensures o[k] < |a| && r[k] == a[o[k]] {
        if k < |r0| {
          assert o[k] == o0[k] && r[k] == r0[k] && init[o0[k]] == a[o0[k]];
        }
      }
    }
  }

  /** Position `i` occurs in the list of origins `o`. */
  predicate Occurs(o: seq<nat>, i: nat)
  {
    exists k :: 0 <= k < |o| && o[k] == i
  }

  lemma OccursAppend(o1: seq<nat>, o2: seq<nat>, i: nat)
    ensures Occurs(o1 + o2, i) <==> Occurs(o1, i) || Occurs(o2, i)
  {
    if Occurs(o1 + o2, i) {
      var k :| 0 <= k < |o1 + o2| && (o1 + o2)[k] == i;
      if k >= |o1| { assert o2[k - |o1|] == i; }
    }
    if Occurs(o2, i) {
      var k :| 0 <= k < |o2| && o2[k] == i;
      assert (o1 + o2)[|o1| + k] == i;
    }
    if Occurs(o1, i) {
      var k :| 0 <= k < |o1| && o1[k] == i;
      assert (o1 + o2)[k] == i;
    }
  }

  /** A score of `a` is among the common scores exactly when it matches
      some score of `b`. */
  lemma {:induction false} CommonScoresMembership(a: seq<Score>, b: seq<Score>, same: (Score, Score, real) -> bool, tolerance: real, i: nat)
    requires i < |a|
    ensures Occurs(CommonOrigins(a, b, same, tolerance), i) <==> MatchCount(a[i], b, same, tolerance) != 0
  {
    var init := a[..|a| - 1];
    var n := MatchCount(a[|a| - 1], b, same, tolerance);
    var o0 := CommonOrigins(init, b, same, tolerance);
    var tail := Repeat(|a| - 1, n);
    assert CommonOrigins(a, b, same, tolerance) == o0 + tail;
    OccursAppend(o0, tail, i);
    if i < |a| - 1 {
      CommonScoresMembership(init, b, same, tolerance, i);
      assert init[i] == a[i];
      assert !Occurs(tail, i);
    } else {
      CommonScoresFromFirst(init, b, same, tolerance);
      assert !Occurs(o0, i);
      assert n != 0 ==> tail[0] == i;
    }
  }

  /** Each score of `a` occurs at most once per score of `b`, so there are at
      most |a|·|b| common scores. */
  lemma {:induction false} CommonScoresBound(a: seq<Score>, b: seq<Score>, same: (Score, Score, real) -> bool, tolerance: real)
    ensures |CommonScores(a, b, same, tolerance)| <= |a| * |b|
  {
    if |a| != 0 {
      CommonScoresBound(a[..|a| - 1], b, same, tolerance);
      assert |a| * |b| == (|a| - 1) * |b| + |b|;
    }
  }

  // ---------------------------------------------------------------------
  // Dataset comparison up to the shorter list (`zip`)

  /** Elements at the same position compare equal, as far as both lists go. */
  predicate PairwiseUpToShorter(a: seq<DocumentReference>, b: seq<DocumentReference>,
                                same: (DocumentReference, DocumentReference) -> bool)
  {
    forall i :: 0 <= i < |a| && i < |b| ==> same(a[i], b[i])
  }

  /** Datasets past the end of the shorter list play no part. */
  lemma ExtraDatasetsIgnored(a: seq<DocumentReference>, b: seq<DocumentReference>, extra: seq<DocumentReference>,
                             same: (DocumentReference, DocumentReference) -> bool)
    requires |a| <= |b|
    ensures PairwiseUpToShorter(a, b + extra, same) == PairwiseUpToShorter(a, b, same)
    ensures PairwiseUpToShorter(b + extra, a, same) == PairwiseUpToShorter(b, a, same)
  {
    assert forall i :: 0 <= i < |b| ==> (b + extra)[i] == b[i];
  }

  // ---------------------------------------------------------------------
  // The entity

  class PipelineRun {
    var id: string
    var status: string
    var start: string
    var end: string
    var submitter: string
    var runPhase: string
    var scores: seq<Score>
    var datasets: seq<DocumentReference>
    var pipeline: DocumentReference
    var problem: DocumentReference

    /** Copies the scalar fields and collects the scores (if the document
        has any) and the dataset references, in document order. */
    constructor (d: PipelineRunDict)
      ensures id == d.id && status == d.state && start == d.start && end == d.end
      ensures submitter == d.submitter && runPhase == d.phase
      ensures scores == InputScores(d)
      ensures datasets == d.datasets
      ensures pipeline == d.pipeline && problem == d.problem
    {
      id := d.id;
      status := d.state;
      start := d.start;
      end := d.end;
      submitter := d.submitter;
      runPhase := d.phase;
      var collected: seq<Score> := [];
      if d.scores.Some? {
        var input := d.scores.value;
        var i := 0;
        while i < |input|
          invariant 0 <= i <= |input|
          invariant collected == input[..i]
        {
          collected := collected + [input[i]];
          i := i + 1;
        }
        assert input[..i] == input;
      }
      scores := collected;
      var refs: seq<DocumentReference> := [];
      var k := 0;
      while k < |d.datasets|
        invariant 0 <= k <= |d.datasets|
        invariant refs == d.datasets[..k]
      {
        refs := refs + [d.datasets[k]];
        k := k + 1;
      }
      assert d.datasets[..k] == d.datasets;
      datasets := refs;
      pipeline := d.pipeline;
      problem := d.problem;
    }

    /** A run is identified by its `id`. */
    function GetId(): (r: string)
      reads this
      ensures r == id
    {
      id
    }

    /** For each of this run's scores in turn, one copy per score of `run`
        that it matches within `tolerance`. */
    method FindCommonScores(run: PipelineRun, same: (Score, Score, real) -> bool, tolerance: real)
      returns (common: seq<Score>)
      ensures common == CommonScores(scores, run.scores, same, tolerance)
    {
      common := [];
      var i := 0;
      while i < |scores|
        invariant 0 <= i <= |scores|
        invariant common == CommonScores(scores[..i], run.scores, same, tolerance)
      {
        var mine := scores[i];
        ghost var before := common;
        var j := 0;
        while j < |run.scores|
          invariant 0 <= j <= |run.scores|
          invariant common == before + Repeat(mine, MatchCount(mine, run.scores[..j], same, tolerance))
        {
          assert run.scores[..j + 1][..j] == run.scores[..j];
          if same(mine, run.scores[j], tolerance) {
            common := common + [mine];
          }
          j := j + 1;
        }
        assert run.scores[..j] == run.scores;
        assert scores[..i + 1][..i] == scores[..i];
        i := i + 1;
      }
      assert scores[..i] == scores;
    }

    /** Same datasets as far as both lists go, same phase, same status and
        tantamount problems. Datasets and problems are compared by two
        separate relations, as the source compares them through their own
        entity classes. */
    predicate SameProblemAndContext(run: PipelineRun, sameDataset: (DocumentReference, DocumentReference) -> bool,
                                    sameProblem: (DocumentReference, DocumentReference) -> bool)
      reads this, run
    {
      && PairwiseUpToShorter(datasets, run.datasets, sameDataset)
      && runPhase == run.runPhase
      && status == run.status
      && sameProblem(problem, run.problem)
    }

    /** The early-return comparison: datasets pairwise over `zip`, then phase,
        status and problem. */
    method IsSameProblemAndContextAs(run: PipelineRun, sameDataset: (DocumentReference, DocumentReference) -> bool,
                                     sameProblem: (DocumentReference, DocumentReference) -> bool)
      returns (b: bool)
      ensures b <==> SameProblemAndContext(run, sameDataset, sameProblem)
    {
      var n := if |datasets| <= |run.datasets| then |datasets| else |run.datasets|;
      var i := 0;
      while i < n
        invariant 0 <= i <= n
        invariant forall k :: 0 <= k < i ==> sameDataset(datasets[k], run.datasets[k])
      {
        if !sameDataset(datasets[i], run.datasets[i]) {
          return false;
        }
        i := i + 1;
      }
      if runPhase != run.runPhase {
        return false;
      }
      if status != run.status {
        return false;
      }
      if !sameProblem(problem, run.problem) {
        return false;
      }
      return true;
    }

    /** The two runs' pipelines are exactly one step apart. */
    function IsOneStepOffFrom(run: PipelineRun, stepsOff: (DocumentReference, DocumentReference) -> int): (b: bool)
      reads this, run
      ensures b <==> stepsOff(pipeline, run.pipeline) == 1
    {
      stepsOff(pipeline, run.pipeline) == 1
    }
  }
}
