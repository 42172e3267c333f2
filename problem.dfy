/** A problem entity: a problem document reduced to what the analyses
    compare — its digest, name, task type and subtype, and the sorted list
    of its performance metric names. */
module Problems {
  import opened Results
  import opened Sorting

  /** One entry of `performance_metrics`; only its `metric` field is read. */
  datatype MetricDict = MetricDict(metric: string)

  /** The fields of a problem document that the constructor reads.
      `performance_metrics` may be absent. */
  datatype ProblemDict = ProblemDict(
    digest: string,
    name: string,
    taskType: string,
    taskSubtype: string,
    performanceMetrics: Option<seq<MetricDict>>)

  // ---------------------------------------------------------------------
  // Python's ordering of strings: lexicographic by code point

  predicate StrLe(a: string, b: string)
  {
    if |a| == 0 then true
    else if |b| == 0 then false
    else if a[0] != b[0] then a[0] < b[0]
    else StrLe(a[1..], b[1..])
  }

  lemma {:induction false} StrLeTotal(a: string, b: string)
    ensures StrLe(a, b) || StrLe(b, a)
  {
    if |a| != 0 && |b| != 0 && a[0] == b[0] {
      StrLeTotal(a[1..], b[1..]);
    }
  }

  lemma {:induction false} StrLeTransitive(a: string, b: string, c: string)
    requires StrLe(a, b) && StrLe(b, c)
    ensures StrLe(a, c)
  {
    if |a| != 0 && |b| != 0 && |c| != 0 && a[0] == b[0] && b[0] == c[0] {
      StrLeTransitive(a[1..], b[1..], c[1..]);
    }
  }

  lemma {:induction false} StrLeAntisymmetric(a: string, b: string)
    requires StrLe(a, b) && StrLe(b, a)
    ensures a == b
  {
    if |a| != 0 && |b| != 0 {
      StrLeAntisymmetric(a[1..], b[1..]);
      assert a == [a[0]] + a[1..] && b == [b[0]] + b[1..];
    }
  }

  /** String order is a total order. */
  lemma StrLeIsTotalOrder()
    ensures TotalPreorder(StrLe) && Antisymmetric(StrLe)
  {
    forall a, b ensures StrLe(a, b) || StrLe(b, a) { StrLeTotal(a, b); }
    forall a, b, c | StrLe(a, b) && StrLe(b, c) ensures StrLe(a, c) { StrLeTransitive(a, b, c); }
    forall a, b | StrLe(a, b) && StrLe(b, a) ensures a == b { StrLeAntisymmetric(a, b); }
  }

  // ---------------------------------------------------------------------
  // The metric list

  /** The metric names in document order; none when `performance_metrics` is absent. */
  function InputMetrics(d: ProblemDict): (r: seq<string>)
    ensures d.performanceMetrics.None? ==> r == []
    ensures d.performanceMetrics.Some? ==>
      |r| == |d.performanceMetrics.value| &&
      forall i :: 0 <= i < |r| ==> r[i] == d.performanceMetrics.value[i].metric
  {
    match d.performanceMetrics
    case None => []
    case Some(ms) => seq(|ms|, i requires 0 <= i < |ms| => ms[i].metric)
  }

  /** The metric list a problem keeps: the input names, sorted. */
  function SortedMetrics(d: ProblemDict): (r: seq<string>)
    ensures SortedBy(r, StrLe)
    ensures multiset(r) == multiset(InputMetrics(d))
  {
    StrLeIsTotalOrder();
    InsertionSort(InputMetrics(d), StrLe)
  }

  /** The metric list depends only on which names occur how often, not on
      their order in the document. */
  lemma PermutedMetricsGiveSameList(d1: ProblemDict, d2: ProblemDict)
    requires multiset(InputMetrics(d1)) == multiset(InputMetrics(d2))
    ensures SortedMetrics(d1) == SortedMetrics(d2)
  {
    StrLeIsTotalOrder();
    SortedUnique(SortedMetrics(d1), SortedMetrics(d2), StrLe);
  }

  // ---------------------------------------------------------------------
  // The entity

  class Problem {
    var digest: string
    var name: string
    var problemType: string
    var subtype: string
    var metrics: seq<string>

    /** Copies the scalar fields, collects the metric names in document
        order, then sorts them. */
    constructor (d: ProblemDict)
      ensures digest == d.digest && name == d.name
      ensures problemType == d.taskType && subtype == d.taskSubtype
      ensures metrics == SortedMetrics(d)
    {
      digest := d.digest;
      name := d.name;
      problemType := d.taskType;
      subtype := d.taskSubtype;
      var collected: seq<string> := [];
      if d.performanceMetrics.Some? {
        var ms := d.performanceMetrics.value;
        var i := 0;
        while i < |ms|
          invariant 0 <= i <= |ms|
          invariant |collected| == i
          invariant forall j :: 0 <= j < i ==> collected[j] == ms[j].metric
        {
          collected := collected + [ms[i].metric];
          i := i + 1;
        }
      }
      assert collected == InputMetrics(d);
      StrLeIsTotalOrder();
      metrics := InsertionSort(collected, StrLe);
    }

    /** A problem is identified by its digest (not by its name). */
    function GetId(): (id: string)
      reads this
      ensures id == digest
    {
      digest
    }

    /** Same metrics, type and subtype; name and digest are not compared. */
    predicate SameDefinition(other: Problem)
      reads this, other
    {
      metrics == other.metrics && problemType == other.problemType && subtype == other.subtype
    }

    /** The length check, the element-by-element comparison of the sorted
        metric lists, then type and subtype. */
    method IsTantamountTo(other: Problem) returns (b: bool)
      ensures b <==> SameDefinition(other)
    {
      if |metrics| != |other.metrics| {
        return false;
      }
      var i := 0;
      while i < |metrics|
        invariant 0 <= i <= |metrics|
        invariant metrics[..i] == other.metrics[..i]
      {
        if metrics[i] != other.metrics[i] {
          return false;
        }
        i := i + 1;
      }
      assert metrics == metrics[..i] && other.metrics == other.metrics[..i];
      return problemType == other.problemType && subtype == other.subtype;
    }
  }

  /** Two problems whose metric lists are sorted and hold the same names
      equally often, with the same task type and subtype, are tantamount,
      whatever their names and digests. The constructor makes every metric
      list sorted (`SortedMetrics`), so problems built from documents that
      list the same metrics in any order qualify. */
  lemma SameMetricsGiveSameDefinition(p: Problem, q: Problem)
    requires SortedBy(p.metrics, StrLe) && SortedBy(q.metrics, StrLe)
    requires multiset(p.metrics) == multiset(q.metrics)
    requires p.problemType == q.problemType && p.subtype == q.subtype
    ensures p.SameDefinition(q)
  {
    StrLeIsTotalOrder();
    SortedUnique(p.metrics, q.metrics, StrLe);
  }

  /** Tantamount problems have the same definition in every respect compared:
      an equivalence relation. */
  lemma SameDefinitionIsEquivalence(p: Problem, q: Problem, s: Problem)
    ensures p.SameDefinition(p)
    ensures p.SameDefinition(q) ==> q.SameDefinition(p)
    ensures p.SameDefinition(q) && q.SameDefinition(s) ==> p.SameDefinition(s)
  {
  }
}
