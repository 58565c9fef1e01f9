/** The results panel (src/audit_results_view.cpp): the layout is modelled as
    the list of its label texts, top to bottom. */
module ResultsView {
  import opened AuditResults

  /** The bullet every issue label starts with. */
  const Bullet := "  \U{2022} "

  /** The labels for one result's issues, one per issue, in order. */
  function IssueLabels(issues: seq<string>): (r: seq<string>)
    ensures |r| == |issues|
    ensures forall i :: 0 <= i < |issues| ==> r[i] == Bullet + issues[i]
  {
    if |issues| == 0 then [] else IssueLabels(issues[..|issues| - 1]) + [Bullet + issues[|issues| - 1]]
  }

  /** What render lays out: for each result in order, its summary and then its issues. */
  function Labels(results: seq<Finding>): seq<string>
  {
    if |results| == 0 then []
    else Labels(results[..|results| - 1]) + [Summary(results[|results| - 1])] + IssueLabels(results[|results| - 1].issues)
  }

  /** One summary plus one label per issue, summed over the results. */
  function LabelCount(results: seq<Finding>): nat
  {
    if |results| == 0 then 0 else LabelCount(results[..|results| - 1]) + 1 + |results[|results| - 1].issues|
  }

  lemma {:induction false} LabelsCount(results: seq<Finding>)
    ensures |Labels(results)| == LabelCount(results)
  {
    if |results| > 0 {
      LabelsCount(results[..|results| - 1]);
    }
  }

  /** The labels of a list of results are the labels of its parts, one after the other. */
  lemma {:induction false} LabelsConcat(a: seq<Finding>, b: seq<Finding>)
    ensures Labels(a + b) == Labels(a) + Labels(b)
    decreases |b|
  {
    if |b| == 0 {
      assert a + b == a;
    } else {
      assert (a + b)[..|a + b| - 1] == a + b[..|b| - 1];
      LabelsConcat(a, b[..|b| - 1]);
    }
  }

  /** The first label of a non-empty result list is the first result's summary. */
  lemma FirstLabelIsSummary(results: seq<Finding>)
    requires |results| > 0
    ensures |Labels(results)| > 0 && Labels(results)[0] == Summary(results[0])
  {
    LabelsConcat([results[0]], results[1..]);
    assert [results[0]] + results[1..] == results;
    assert Labels([results[0]]) == [Summary(results[0])] + IssueLabels(results[0].issues) by {
      assert [results[0]][..0] == [];
    }
  }

  class AuditResultsView {
    var currentResults: seq<Finding>
    /** The texts of the labels in the layout, in order. */
    var labels: seq<string>

    constructor ()
      ensures currentResults == [] && labels == []
    {
      currentResults := [];
      labels := [];
    }

    /** render: empties the layout, then adds the labels of currentResults. */
    method Render()
      modifies this
      ensures currentResults == old(currentResults)
      ensures labels == Labels(currentResults)
    {
      while |labels| > 0
        invariant currentResults == old(currentResults)
        decreases |labels|
      {
        labels := labels[1..];
      }
      var i := 0;
      while i < |currentResults|
        invariant 0 <= i <= |currentResults|
        invariant currentResults == old(currentResults)
        invariant labels == Labels(currentResults[..i])
      {
        var result := currentResults[i];
        labels := labels + [Summary(result)];
        var j := 0;
        while j < |result.issues|
          invariant 0 <= j <= |result.issues|
          invariant currentResults == old(currentResults)
          invariant labels == Labels(currentResults[..i]) + [Summary(result)] + IssueLabels(result.issues[..j])
        {
          assert result.issues[..j + 1][..j] == result.issues[..j];
          labels := labels + [Bullet + result.issues[j]];
          j := j + 1;
        }
        assert result.issues[..j] == result.issues;
        assert currentResults[..i + 1][..i] == currentResults[..i];
        i := i + 1;
      }
      assert currentResults[..i] == currentResults;
    }

    /** displayResults: replaces the results wholesale, then renders. */
    method DisplayResults(results: seq<Finding>)
      modifies this
      ensures currentResults == results
      ensures labels == Labels(results)
    {
      currentResults := results;
      Render();
    }
  }
}
