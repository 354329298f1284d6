/**
 * The action's `run()`: list the pull requests of a commit, read the counter
 * variable, and when a pull request carries the configured label write the
 * counter plus one back and output it. Every failure ends in the output 0.
 *
 * The hosting API client is a `Client` object whose three requests return
 * responses fixed when it is made and which records every request issued; the
 * action runtime is an `ActionCore` object that records every output set.
 */
module ForceUpdate {
  import opened Wrappers
  import opened NumberText
  import opened PullRequests

  /** The name under which the count is output. */
  const OutputName: string := "force_update_build_count"

  /** The action's inputs that reach the decision and the requests (the token only
    * authenticates the client and is not modelled). */
  datatype Config = Config(
    commitSha: string,
    owner: string,
    repo: string,
    labelName: string,
    variableName: string)

  /** The outcome of an awaited request: its data, or a rejection (a thrown error). */
  datatype Response<+T> = Ok(data: T) | Failed

  /** How the three requests of one run turn out. The variable's `value` is
    * absent (`undefined`) when the response carries none. */
  datatype Responses = Responses(
    pulls: Response<seq<PullRequest>>,
    variable: Response<Option<string>>,
    patch: Response<()>)

  /** The requests the action can issue, with the parameters that identify them. */
  datatype Request =
    | ListPulls(owner: string, repo: string, commitSha: string)
    | GetVariable(owner: string, repo: string, name: string)
    | PatchVariable(owner: string, repo: string, name: string, value: string)

  /** A value passed to `setOutput`: the number 0 or a string. */
  datatype Output = Zero | Text(text: string)

  /** JavaScript truthiness of the stored value: absent and "" are falsy. */
  predicate Truthy(value: Option<string>)
  {
    value.Some? && value.value != ""
  }

  /** What the body of the `try` block does: the requests it issues and either
    * the output it sets before returning or `Failed` when it throws. */
  datatype Attempt = Attempt(requests: seq<Request>, result: Response<Output>)

  /** The observable effect of a whole run: the requests issued and the one output set. */
  datatype Trace = Trace(requests: seq<Request>, output: Output)

  /** The `try` block of `run()`, on given responses. */
  function TryBlock(cfg: Config, rs: Responses): Attempt
  {
    var list := ListPulls(cfg.owner, cfg.repo, cfg.commitSha);
    var get := GetVariable(cfg.owner, cfg.repo, cfg.variableName);
    match rs.pulls
    case Failed => Attempt([list], Failed)
    case Ok(prs) =>
      match rs.variable
      case Failed => Attempt([list, get], Failed)
      case Ok(value) =>
        if !Truthy(value) then Attempt([list, get], Ok(Zero))
        else if |FilterByLabel(prs, cfg.labelName)| == 0 then Attempt([list, get], Ok(Text(value.value)))
        else
          var next := IncrementText(value.value);
          var patch := PatchVariable(cfg.owner, cfg.repo, cfg.variableName, next);
          match rs.patch
          case Failed => Attempt([list, get, patch], Failed)
          case Ok(_) => Attempt([list, get, patch], Ok(Text(next)))
  }

  /** `run()`: the `try` block, and the `catch` that outputs 0 when it threw. */
  function RunTrace(cfg: Config, rs: Responses): Trace
  {
    var a := TryBlock(cfg, rs);
    Trace(a.requests, match a.result case Ok(o) => o case Failed => Zero)
  }

  /** The hosting API client: each request is recorded and answered with the
    * response fixed for it. */
  class Client {
    const responses: Responses
    var issued: seq<Request>

    constructor (responses: Responses)
      ensures this.responses == responses && issued == []
    {
      this.responses := responses;
      issued := [];
    }

    /** GET /repos/{owner}/{repo}/commits/{commit_sha}/pulls */
    method FetchPullRequests(owner: string, repo: string, commitSha: string)
      returns (r: Response<seq<PullRequest>>)
      modifies this`issued
      ensures issued == old(issued) + [ListPulls(owner, repo, commitSha)]
      ensures r == responses.pulls
    {
      issued := issued + [ListPulls(owner, repo, commitSha)];
      r := responses.pulls;
    }

    /** GET /repos/{owner}/{repo}/actions/variables/{name} */
    method FetchVariable(owner: string, repo: string, name: string)
      returns (r: Response<Option<string>>)
      modifies this`issued
      ensures issued == old(issued) + [GetVariable(owner, repo, name)]
      ensures r == responses.variable
    {
      issued := issued + [GetVariable(owner, repo, name)];
      r := responses.variable;
    }

    /** PATCH /repos/{owner}/{repo}/actions/variables/{name} with the new value */
    method UpdateVariable(owner: string, repo: string, name: string, value: string)
      returns (r: Response<()>)
      modifies this`issued
      ensures issued == old(issued) + [PatchVariable(owner, repo, name, value)]
      ensures r == responses.patch
    {
      issued := issued + [PatchVariable(owner, repo, name, value)];
      r := responses.patch;
    }
  }

  /** The action runtime: records every `setOutput` call. */
  class ActionCore {
    var outputs: seq<(string, Output)>

    constructor ()
      ensures outputs == []
    {
      outputs := [];
    }

    method SetOutput(name: string, value: Output)
      modifies this`outputs
      ensures outputs == old(outputs) + [(name, value)]
    {
      outputs := outputs + [(name, value)];
    }
  }

  /** The body of the `try` block; `threw` says whether it ended by throwing. */
  method TryRun(cfg: Config, client: Client, core: ActionCore) returns (threw: bool)
    modifies client`issued, core`outputs
    ensures client.issued == old(client.issued) + TryBlock(cfg, client.responses).requests
    ensures threw <==> TryBlock(cfg, client.responses).result.Failed?
    ensures core.outputs == old(core.outputs)
              + (if threw then [] else [(OutputName, TryBlock(cfg, client.responses).result.data)])
  {
    var pullsResponse := client.FetchPullRequests(cfg.owner, cfg.repo, cfg.commitSha);
    if pullsResponse.Failed? {
      return true;
    }
    var pullRequests := FilterByLabel(pullsResponse.data, cfg.labelName);

    var variableResponse := client.FetchVariable(cfg.owner, cfg.repo, cfg.variableName);
    if variableResponse.Failed? {
      return true;
    }
    var count := variableResponse.data;

    if !Truthy(count) {
      core.SetOutput(OutputName, Zero);
      return false;
    }

    if |pullRequests| == 0 {
      core.SetOutput(OutputName, Text(count.value));
      return false;
    }

    var latest := IncrementText(count.value);
    var patchResponse := client.UpdateVariable(cfg.owner, cfg.repo, cfg.variableName, latest);
    if patchResponse.Failed? {
      return true;
    }
    core.SetOutput(OutputName, Text(latest));
    threw := false;
  }

  /** `run()`: nothing escapes, and exactly one output is set. */
  method Run(cfg: Config, client: Client, core: ActionCore)
    modifies client`issued, core`outputs
    ensures client.issued == old(client.issued) + RunTrace(cfg, client.responses).requests
    ensures core.outputs == old(core.outputs) + [(OutputName, RunTrace(cfg, client.responses).output)]
  {
    var threw := TryRun(cfg, client, core);
    if threw {
      core.SetOutput(OutputName, Zero);
    }
  }

  // ---------------------------------------------------------------------------
  // Properties of a run.

  /** The requests of a run that are PATCHes. */
  function Patches(requests: seq<Request>): (r: seq<Request>)
    ensures |r| <= |requests|
    ensures forall i :: 0 <= i < |r| ==> r[i].PatchVariable? && r[i] in requests
    ensures forall i :: 0 <= i < |requests| && requests[i].PatchVariable? ==> requests[i] in r
    ensures (forall i :: 0 <= i < |requests| ==> !requests[i].PatchVariable?) ==> r == []
  {
    if requests == [] then []
    else (if requests[0].PatchVariable? then [requests[0]] else []) + Patches(requests[1..])
  }

  /** Whether the run reaches the PATCH: both GETs succeeded, the stored value is
    * truthy and some pull request carries the label. */
  predicate ReachesPatch(cfg: Config, rs: Responses)
  {
    && rs.pulls.Ok?
    && rs.variable.Ok?
    && Truthy(rs.variable.data)
    && FilterByLabel(rs.pulls.data, cfg.labelName) != []
  }

  /** The pull requests are always listed first; the variable is read only after
    * the list arrived; at most three requests are issued. */
  lemma RequestOrder(cfg: Config, rs: Responses)
    ensures var t := RunTrace(cfg, rs);
      && 1 <= |t.requests| <= 3
      && t.requests[0] == ListPulls(cfg.owner, cfg.repo, cfg.commitSha)
      && (|t.requests| >= 2 <==> rs.pulls.Ok?)
      && (|t.requests| >= 2 ==> t.requests[1] == GetVariable(cfg.owner, cfg.repo, cfg.variableName))
  {
  }

  /** At most one PATCH is issued, and one is issued exactly when the run reaches
    * it; it goes to the variable that was read and carries the incremented value. */
  lemma PatchAtMostOnce(cfg: Config, rs: Responses)
    ensures var p := Patches(RunTrace(cfg, rs).requests);
      && |p| <= 1
      && (|p| == 1 <==> ReachesPatch(cfg, rs))
      && (|p| == 1 ==> p[0] == PatchVariable(cfg.owner, cfg.repo, cfg.variableName,
                                             IncrementText(rs.variable.data.value)))
  {
    var t := RunTrace(cfg, rs);
    var list := ListPulls(cfg.owner, cfg.repo, cfg.commitSha);
    var get := GetVariable(cfg.owner, cfg.repo, cfg.variableName);
    assert Patches([]) == [];
    assert Patches([get]) == [];
    assert Patches([list, get]) == [];
    if ReachesPatch(cfg, rs) {
      var patch := t.requests[2];
      assert t.requests == [list, get, patch];
      assert [list, get, patch][1..] == [get, patch];
      assert [get, patch][1..] == [patch];
      assert Patches([patch]) == [patch];
    }
  }

  /** A falsy stored value (absent or "") gives the output 0 and no PATCH,
    * whatever pull requests were listed. */
  lemma FalsyValueOutputsZero(cfg: Config, rs: Responses)
    requires rs.pulls.Ok? && rs.variable.Ok? && !Truthy(rs.variable.data)
    ensures RunTrace(cfg, rs).output == Zero
    ensures |RunTrace(cfg, rs).requests| == 2
  {
  }

  /** With a truthy stored value and no pull request carrying the label, the
    * stored value is output unchanged and no PATCH is issued. */
  lemma NoLabelledPullRequestKeepsValue(cfg: Config, rs: Responses)
    requires rs.pulls.Ok? && rs.variable.Ok? && Truthy(rs.variable.data)
    requires forall i :: 0 <= i < |rs.pulls.data| ==> !CarriesLabel(rs.pulls.data[i], cfg.labelName)
    ensures RunTrace(cfg, rs).output == Text(rs.variable.data.value)
    ensures |RunTrace(cfg, rs).requests| == 2
  {
    FilterEmptyIff(rs.pulls.data, cfg.labelName);
  }

  /** With a truthy stored value, a pull request carrying the label and a
    * successful PATCH, the output and the PATCHed value are both the stored value
    * plus one, and the PATCH goes to the variable that was read. */
  lemma LabelledPullRequestIncrements(cfg: Config, rs: Responses)
    requires rs.pulls.Ok? && rs.variable.Ok? && Truthy(rs.variable.data) && rs.patch.Ok?
    requires exists i :: 0 <= i < |rs.pulls.data| && CarriesLabel(rs.pulls.data[i], cfg.labelName)
    ensures var next := IncrementText(rs.variable.data.value);
      && RunTrace(cfg, rs).output == Text(next)
      && RunTrace(cfg, rs).requests[2..] == [PatchVariable(cfg.owner, cfg.repo, cfg.variableName, next)]
      && ParseInt(next) == Add(ParseInt(rs.variable.data.value), 1)
  {
    FilterEmptyIff(rs.pulls.data, cfg.labelName);
    IncrementTextParses(rs.variable.data.value);
  }

  /** Any failed request gives the output 0; a failed listing stops the run
    * before the variable is read, so the current count is not output. */
  lemma FailureOutputsZero(cfg: Config, rs: Responses)
    requires rs.pulls.Failed? || rs.variable.Failed? || (ReachesPatch(cfg, rs) && rs.patch.Failed?)
    ensures RunTrace(cfg, rs).output == Zero
    ensures rs.pulls.Failed? ==> RunTrace(cfg, rs).requests == [ListPulls(cfg.owner, cfg.repo, cfg.commitSha)]
  {
  }

  /** The output is the number 0 exactly on the falsy and failure paths; otherwise
    * it is the stored value or its increment. */
  lemma OutputCases(cfg: Config, rs: Responses)
    ensures var o := RunTrace(cfg, rs).output;
      && (o == Zero <==> !(rs.pulls.Ok? && rs.variable.Ok? && Truthy(rs.variable.data))
                         || (ReachesPatch(cfg, rs) && rs.patch.Failed?))
      && (o.Text? ==> o.text == rs.variable.data.value
                      || o.text == IncrementText(rs.variable.data.value))
  {
  }

  /** Every PATCH a run issues carries the increment of the value that was read. */
  lemma PatchCarriesIncrement(cfg: Config, rs: Responses, i: nat)
    requires i < |RunTrace(cfg, rs).requests| && RunTrace(cfg, rs).requests[i].PatchVariable?
    ensures ReachesPatch(cfg, rs)
    ensures RunTrace(cfg, rs).requests[i].value == IncrementText(rs.variable.data.value)
  {
  }

  /** For a counter stored as the canonical numeral of n, a run outputs 0, n or
    * n + 1, and a PATCH writes the numeral of n + 1: the counter never decreases. */
  lemma CounterNeverDecreases(cfg: Config, rs: Responses)
    requires rs.variable.Ok? && rs.variable.data.Some? && IsCanonicalDecimal(rs.variable.data.value)
    ensures AllDigits(rs.variable.data.value, 10)
    ensures var n := DigitsValue(rs.variable.data.value, 10);
      var t := RunTrace(cfg, rs);
      && (t.output == Zero || t.output == Text(NaturalToDecimal(n)) || t.output == Text(NaturalToDecimal(n + 1)))
      && (forall i :: 0 <= i < |t.requests| && t.requests[i].PatchVariable?
            ==> ParseInt(t.requests[i].value) == Int(n + 1))
  {
    var s := rs.variable.data.value;
    IncrementCanonical(s);
    DecimalOfValue(s);
    OutputCases(cfg, rs);
    forall i | 0 <= i < |RunTrace(cfg, rs).requests| && RunTrace(cfg, rs).requests[i].PatchVariable?
      ensures ParseInt(RunTrace(cfg, rs).requests[i].value) == Int(DigitsValue(s, 10) + 1)
    {
      PatchCarriesIncrement(cfg, rs, i);
    }
  }

  /** The run on the counter "42" with one pull request labelled as configured. */
  lemma IncrementsFortyTwo(cfg: Config, rs: Responses)
    requires cfg.labelName == "force-update"
    requires rs.pulls == Ok([PullRequest(123, [Label("force-update")])])
    requires rs.variable == Ok(Some("42")) && rs.patch.Ok?
    ensures RunTrace(cfg, rs).output == Text("43")
    ensures RunTrace(cfg, rs).requests[2] == PatchVariable(cfg.owner, cfg.repo, cfg.variableName, "43")
  {
    IncrementFortyTwo();
    assert CarriesLabel(rs.pulls.data[0], cfg.labelName);
    assert FilterByLabel(rs.pulls.data, cfg.labelName) != [];
  }

  /** The run on the counter "42" with one pull request carrying another label. */
  lemma OtherLabelKeepsFortyTwo(cfg: Config, rs: Responses)
    requires cfg.labelName == "force-update"
    requires rs.pulls == Ok([PullRequest(123, [Label("some-other-label")])])
    requires rs.variable == Ok(Some("42"))
    ensures RunTrace(cfg, rs).output == Text("42")
    ensures |RunTrace(cfg, rs).requests| == 2
  {
  }
}
