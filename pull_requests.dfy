/**
 * The pull requests associated with a commit, as the hosting API lists them,
 * and the label filter that selects those which ask for a forced update.
 */
module PullRequests {
  import opened Wrappers

  /** A label attached to a pull request; only its name is consulted. */
  datatype Label = Label(name: string)

  /** A pull request; only its labels are consulted. */
  datatype PullRequest = PullRequest(number: int, labels: seq<Label>)

  /** `labels.find(l => l.name === name)`: the first label with that exact name. */
  function FindLabel(labels: seq<Label>, name: string): (r: Option<Label>)
    ensures r.Some? ==> r.value in labels && r.value.name == name
    ensures r.None? ==> forall i :: 0 <= i < |labels| ==> labels[i].name != name
  {
    if labels == [] then None
    else if labels[0].name == name then Some(labels[0])
    else FindLabel(labels[1..], name)
  }

  /** The label `find` returns is the first one with the wanted name: it sits
    * at an index `i` before which no label has that name. */
  lemma {:induction false} FindLabelFirst(labels: seq<Label>, name: string) returns (i: nat)
    requires FindLabel(labels, name).Some?
    ensures i < |labels| && labels[i] == FindLabel(labels, name).value
    ensures forall j :: 0 <= j < i ==> labels[j].name != name
  {
    if labels[0].name == name {
      i := 0;
    } else {
      var k := FindLabelFirst(labels[1..], name);
      i := k + 1;
      forall j | 0 <= j < i ensures labels[j].name != name {
        if j > 0 { assert labels[j] == labels[1..][j - 1]; }
      }
    }
  }

  /** The callback passed to `filter`: a pull request without labels is dropped
    * outright, otherwise it is kept when `find` returns a label. */
  predicate CarriesLabel(pr: PullRequest, wanted: string)
  {
    if |pr.labels| == 0 then false else FindLabel(pr.labels, wanted).Some?
  }

  /** `prs.filter(...)`: the pull requests carrying the label, in their order. */
  function FilterByLabel(prs: seq<PullRequest>, wanted: string): (r: seq<PullRequest>)
    ensures |r| <= |prs|
    ensures forall i :: 0 <= i < |r| ==> CarriesLabel(r[i], wanted)
  {
    if prs == [] then []
    else (if CarriesLabel(prs[0], wanted) then [prs[0]] else []) + FilterByLabel(prs[1..], wanted)
  }

  /** `a` is obtained from `b` by deleting elements, without reordering. */
  ghost predicate IsSubsequence<T>(a: seq<T>, b: seq<T>)
    decreases |b|
  {
    || a == []
    || (b != [] && ((a[0] == b[0] && IsSubsequence(a[1..], b[1..])) || IsSubsequence(a, b[1..])))
  }

  /** A pull request passes exactly when one of its labels has the configured name `wanted`,
    * compared case-sensitively; so one without labels never passes. */
  lemma CarriesLabelIff(pr: PullRequest, wanted: string)
    ensures CarriesLabel(pr, wanted) <==> exists i :: 0 <= i < |pr.labels| && pr.labels[i].name == wanted
  {
  }

  /** A pull request is in the filtered list exactly when it is in the input and carries the label. */
  lemma {:induction false} FilterMembership(prs: seq<PullRequest>, wanted: string, pr: PullRequest)
    ensures pr in FilterByLabel(prs, wanted) <==> pr in prs && CarriesLabel(pr, wanted)
  {
    if prs != [] {
      FilterMembership(prs[1..], wanted, pr);
      assert prs == [prs[0]] + prs[1..];
    }
  }

  /** The filter works element by element: it distributes over concatenation. */
  lemma {:induction false} FilterAppend(a: seq<PullRequest>, b: seq<PullRequest>, wanted: string)
    ensures FilterByLabel(a + b, wanted) == FilterByLabel(a, wanted) + FilterByLabel(b, wanted)
  {
    if a != [] {
      assert (a + b)[1..] == a[1..] + b;
      FilterAppend(a[1..], b, wanted);
    } else {
      assert a + b == b;
    }
  }

  /** The filtered list keeps the input's order: it is a subsequence of it. */
  lemma {:induction false} FilterIsSubsequence(prs: seq<PullRequest>, wanted: string)
    ensures IsSubsequence(FilterByLabel(prs, wanted), prs)
  {
    if prs != [] {
      FilterIsSubsequence(prs[1..], wanted);
      var r := FilterByLabel(prs, wanted);
      if CarriesLabel(prs[0], wanted) {
        assert r[0] == prs[0] && r[1..] == FilterByLabel(prs[1..], wanted);
      } else {
        assert r == FilterByLabel(prs[1..], wanted);
      }
    }
  }

  /** The filtered list is empty exactly when no pull request carries the label. */
  lemma {:induction false} FilterEmptyIff(prs: seq<PullRequest>, wanted: string)
    ensures FilterByLabel(prs, wanted) == [] <==> forall i :: 0 <= i < |prs| ==> !CarriesLabel(prs[i], wanted)
  {
    if prs != [] {
      FilterEmptyIff(prs[1..], wanted);
      assert forall i :: 1 <= i < |prs| ==> prs[i] == prs[1..][i - 1];
    }
  }

  /** A list in which every pull request carries the label passes unchanged. */
  lemma {:induction false} FilterKeepsAll(prs: seq<PullRequest>, wanted: string)
    requires forall i :: 0 <= i < |prs| ==> CarriesLabel(prs[i], wanted)
    ensures FilterByLabel(prs, wanted) == prs
  {
    if prs != [] {
      assert forall i :: 0 <= i < |prs| - 1 ==> prs[1..][i] == prs[i + 1];
      FilterKeepsAll(prs[1..], wanted);
      assert prs == [prs[0]] + prs[1..];
    }
  }
}
