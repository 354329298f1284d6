# force-update-build-action, modelled in Dafny

This project models the decision procedure of the GitHub Action step
`run()` in `src/main.js`. The step lists the pull requests associated with a
commit. It keeps those carrying a configured label. It reads a counter stored
as a repository variable. It then outputs one value, `force_update_build_count`:

- `0` when the stored value is falsy (absent or the empty string);
- the stored value unchanged when no pull request carries the label;
- otherwise `(parseInt(value) + 1).toString()`, after PATCHing that string back
  to the same variable;
- `0` when any of the three requests fails (the `catch` block).

Files and modules:

- `wrappers.dfy` (`Wrappers`): `Option`, used for JavaScript's `undefined`.
- `number_text.dfy` (`NumberText`): the global `parseInt` with no radix, and
  `Number.prototype.toString` on its result plus one. `ParseInt` follows
  ECMAScript's algorithm. It skips the WhiteSpace and LineTerminator code
  points, reads an optional sign, switches to radix 16 after `0x`/`0X`, and
  reads the longest digit prefix. No digits gives `NaN`. `NaN + 1` is `NaN`,
  which prints as `"NaN"`, so a stored value with no leading digits is
  incremented to the text `"NaN"`; the model keeps that behaviour.
- `pull_requests.dfy` (`PullRequests`): labels, pull requests, `find` and the
  `filter` callback, with lemmas. A pull request passes exactly when one of
  its labels has the configured name, compared case-sensitively. The filter is
  an order-preserving subsequence of its input.
- `force_update.dfy` (`ForceUpdate`): `run()`. The Octokit client is a
  `Client` object. Each of its three requests returns a response fixed when the
  client is made, either data or a failure, and is appended to the client's
  `issued` log. The `@actions/core` runtime is an `ActionCore` object that
  records each `setOutput` call. `TryRun` is the `try` block and `Run` adds
  the `catch`. Both are proved against the pure functions `TryBlock` and
  `RunTrace`, which give the requests issued and the output set. Lemmas about
  `RunTrace` state the properties of a run.

Three behaviours of the code are worth stating plainly, and the model keeps
each of them:

- A failed PATCH outputs `0`, through the catch-all at `src/main.js:94-101`.
  The pre-increment count is not output.
- A failed pull-request listing also outputs `0`. The listing comes before the
  variable is read (`src/main.js:27-56`), so no current count is known yet.
- The tests at `__tests__/main.test.js:164-186` expect `NaN` on failure, but the
  code sets `0` (`src/main.js:100`). The model follows the code.

## Model

| member | source | states |
|---|---|---|
| `NumberText.Add` | src/main.js:78 | `+ 1` on what parseInt returns: NaN stays NaN, an integer goes up by one; its meaning for the counter is stated by `IncrementTextParses` |
| `NumberText.ParseInt` | src/main.js:78 | `parseInt` with no radix: trim, sign, `0x` prefix, longest digit prefix, NaN when there is none; its properties are stated by `ParseIntSkipsWhiteSpace`, `ParseIntDecimalPrefix`, `ParseIntCanonical`, `ParseIntNegativeCanonical`, `ParseIntNaNText`, `ParseIntOfToString` and `ToStringOfParseInt` |
| `NumberText.IncrementText` | src/main.js:77-79 | the next counter text, `(parseInt(value) + 1).toString()`; its properties are stated by `IncrementTextParses`, `IncrementCanonical`, `IncrementFortyTwo` and `IncrementNonNumeric` |
| `NumberText.TrimStart` | src/main.js:78 | parseInt's first step: the result is a suffix of the input, everything dropped is white space, and the result does not start with white space |
| `NumberText.DigitPrefixLength` | src/main.js:78 | parseInt reads the longest digit prefix: every character before the result is a digit and the one at it (if any) is not |
| `NumberText.NaturalToDecimal` | src/main.js:77-79 | `toString` of a natural number is a canonical numeral (non-empty digits, no redundant leading zero); it starts with `0` only for zero |
| `NumberText.NumberToString` | src/main.js:77-79 | `toString` prints an integer as a canonical numeral with an optional minus sign, and NaN as `"NaN"` |
| `NumberText.DecimalValue` | src/main.js:77-79 | the digits `toString` prints for n spell n |
| `NumberText.DecimalOfValue` | src/main.js:77-79 | a canonical numeral is exactly what `toString` prints for its value |
| `NumberText.ParseIntSkipsWhiteSpace` | src/main.js:78 | parseInt ignores a leading white-space character |
| `NumberText.ParseIntDecimalPrefix` | src/main.js:78 | parseInt of decimal digits followed by any non-digit text (other than an `x` after a lone `0`) is the value of the digits |
| `NumberText.LeadingDecimalDigits` | src/main.js:78 | the decimal digits in front of a non-digit (or of the end) are read as exactly their value |
| `NumberText.ParseIntCanonical` | src/main.js:78 | a canonical decimal numeral parses to its value |
| `NumberText.ParseIntNegativeCanonical` | src/main.js:78 | a minus sign before a canonical numeral negates its value |
| `NumberText.ParseIntNaNText` | src/main.js:77-79 | the text `"NaN"` parses to NaN |
| `NumberText.ParseIntOfToString` | src/main.js:77-79 | round trip: parseInt of `toString(x)` is x, for every integer and for NaN |
| `NumberText.ToStringOfParseInt` | src/main.js:77-79 | round trip: `toString(parseInt(s))` is s for every canonical integer numeral s |
| `NumberText.IncrementTextParses` | src/main.js:77-79 | the new counter text parses to one more than the stored text; it is `"NaN"` exactly when the stored text has no leading number |
| `NumberText.IncrementCanonical` | src/main.js:77-79 | for a stored canonical numeral of n, the new text is the numeral of n + 1 and parses to n + 1 |
| `NumberText.IncrementFortyTwo` | src/main.js:77-79 | `"42"` becomes `"43"` |
| `NumberText.IncrementNonNumeric` | src/main.js:77-79 | a stored value whose first character is neither white space, a sign nor a digit becomes `"NaN"` |
| `PullRequests.FindLabel` | src/main.js:43 | `find` returns a label of the list with exactly the wanted name, and returns nothing only when no label has that name |
| `PullRequests.FindLabelFirst` | src/main.js:43 | the label `find` returns is the first one with the wanted name: no label before it has that name |
| `PullRequests.CarriesLabel` | src/main.js:40-43 | the `filter` callback: false for an empty label list, otherwise whether `find` returns a label; `CarriesLabelIff` states what it decides |
| `PullRequests.FilterByLabel` | src/main.js:39-44 | the filtered list is no longer than the input and every pull request in it carries the label |
| `PullRequests.CarriesLabelIff` | src/main.js:40-43 | a pull request passes the callback iff one of its labels has exactly the configured name; one with no labels never passes |
| `PullRequests.FilterMembership` | src/main.js:39-44 | a pull request is in the filtered list iff it is in the input and carries the label |
| `PullRequests.FilterAppend` | src/main.js:39-44 | the filter distributes over concatenation, so it decides element by element |
| `PullRequests.FilterIsSubsequence` | src/main.js:39-44 | the filtered list is a subsequence of the input, keeping its order |
| `PullRequests.FilterEmptyIff` | src/main.js:39-44 | the filtered list is empty iff no pull request of the input carries the label |
| `PullRequests.FilterKeepsAll` | src/main.js:39-44 | a list in which every pull request carries the label passes unchanged |
| `ForceUpdate.Truthy` | src/main.js:59 | the negation of `!forceUpdateBuildCount` for a string or absent value: present and not empty; `FalsyValueOutputsZero` and `OutputCases` state its effect on the run |
| `ForceUpdate.TryBlock` | src/main.js:5-93 | the `try` block on given responses: the requests issued in order and the output set, or a throw; `TryRun` is proved to behave exactly so |
| `ForceUpdate.RunTrace` | src/main.js:4-102 | `run()` on given responses: the requests issued and the one output, 0 when the `try` block threw; `Run` is proved to behave exactly so, and `RequestOrder`, `PatchAtMostOnce`, `FalsyValueOutputsZero`, `NoLabelledPullRequestKeepsValue`, `LabelledPullRequestIncrements`, `FailureOutputsZero`, `OutputCases` and `CounterNeverDecreases` state its properties |
| `ForceUpdate.Client.FetchPullRequests` | src/main.js:27-37 | the GET for the commit's pull requests is recorded with its owner, repo and commit and answered with the given response |
| `ForceUpdate.Client.FetchVariable` | src/main.js:46-56 | the GET for the variable is recorded with its name and answered with the given response |
| `ForceUpdate.Client.UpdateVariable` | src/main.js:81-92 | the PATCH is recorded with the variable name and the value sent, and answered with the given response |
| `ForceUpdate.ActionCore.SetOutput` | src/main.js:93 | each `setOutput` call is appended to the outputs |
| `ForceUpdate.TryRun` | src/main.js:5-93 | the `try` block issues the requests of `TryBlock` in order and sets its output, or sets nothing and reports that it threw |
| `ForceUpdate.Run` | src/main.js:4-102 | a run issues the requests of `RunTrace` and sets exactly one output, named `force_update_build_count`; nothing escapes |
| `ForceUpdate.Patches` | src/main.js:81-92 | the PATCH requests of a request list: each one kept is a PATCH of the list, and every PATCH of the list is kept |
| `ForceUpdate.RequestOrder` | src/main.js:27-56 | the pull requests are listed first, the variable is read second and only when the listing succeeded, and at most three requests are issued |
| `ForceUpdate.PatchAtMostOnce` | src/main.js:57-92 | at most one PATCH is issued; one is issued iff both GETs succeeded, the value is truthy and a pull request carries the label; it goes to the variable that was read, with the incremented value |
| `ForceUpdate.FalsyValueOutputsZero` | src/main.js:57-62 | a falsy stored value outputs 0 with no PATCH, whatever the pull requests are |
| `ForceUpdate.NoLabelledPullRequestKeepsValue` | src/main.js:72-75 | a truthy value and no labelled pull request output the stored value unchanged, with no PATCH |
| `ForceUpdate.LabelledPullRequestIncrements` | src/main.js:77-93 | a truthy value, a labelled pull request and a successful PATCH output the incremented text, which is also the value PATCHed to the variable that was read, and which parses to the stored number plus one |
| `ForceUpdate.FailureOutputsZero` | src/main.js:94-101 | any failed request outputs 0; a failed listing issues no further request |
| `ForceUpdate.OutputCases` | src/main.js:57-100 | the output is 0 exactly on the falsy and failure paths, and otherwise the stored value or its increment |
| `ForceUpdate.PatchCarriesIncrement` | src/main.js:77-92 | any PATCH a run issues happens only on the path that reaches it and carries the increment of the value read |
| `ForceUpdate.CounterNeverDecreases` | src/main.js:72-93 | for a stored canonical numeral of n, the output is 0, n or n + 1, and any PATCH writes a value parsing to n + 1 |
| `ForceUpdate.IncrementsFortyTwo` | __tests__/main.test.js:64-105 | counter `"42"` with a `force-update` pull request outputs `"43"` and PATCHes `"43"` to the configured variable |
| `ForceUpdate.OtherLabelKeepsFortyTwo` | __tests__/main.test.js:107-136 | counter `"42"` with a pull request labelled otherwise outputs `"42"` and issues no PATCH |

## Left out

- Reading the inputs with `core.getInput`, building the Octokit client, the token, the URLs and the `X-GitHub-Api-Version` header (`src/main.js:6-13`, `21-37`, `46-56`, `81-92`). They are I/O plumbing. The requests are modelled by their identifying parameters and a given outcome.
- The `core.debug` and `core.error` logging (`src/main.js:15-19`, `64-69`, `95-97`). It does not affect the outcome.
- `async`/`await`. The three requests run one after another, as straight-line calls.
- Malformed responses. A response without `data`, a pull request without a `labels` list, or a `null` or `undefined` label that comes before any label with the configured name throws inside the `try` block and outputs `0`. `find` stops at the first match (`src/main.js:43`), so such a label after a match is never read. A label that is a string, a number or a boolean has no `name` and is silently not matched. The model assumes well-formed responses.
- A variable `value` that is neither a string nor absent is not modelled. Such a value is `null`, a number, a boolean, an object or an array. In the source, `null`, `false` and `0` take the falsy branch (`src/main.js:59-60`). Every other such value is truthy, even an empty object or array. It is output as it is (`src/main.js:73`), or it goes through `parseInt` (`src/main.js:77-79`), which reads its text form. So `true` and a plain object become `"NaN"`, and an array is read from its comma-joined elements.
- `NumberText.ParseInt`: numbers are unbounded integers. JavaScript's doubles lose precision above 2^53, and `toString` switches to exponent notation from 1e21. A numeral at or above about 1.8e308 makes `parseInt` return `Infinity`, and the text `"Infinity"` is then written back. `parseInt("-0")` gives -0 in JavaScript and 0 here. Adding one then gives 1 either way, so nothing observable changes.
- `ForceUpdate.CounterNeverDecreases`: holds only for counters below 2^53 in the source. Above that, `parseInt` rounds to the nearest double, with ties going to even. `"9007199254740992"` stays `"9007199254740992"`, but `"9007199254740993"` becomes `"9007199254740992"`, a decrease. The model's integers are unbounded, so it does not capture this.
- `NumberText.NumberToString`: only integers and NaN are printed. These are the only numbers `parseInt(...) + 1` can produce within 2^53.
- `ForceUpdate.Run`: `core.setOutput` turns the number `0` into the text `"0"`. The model keeps the number (`Zero`) apart from a string (`Text`), as the source passes them.
- The `@octokit/rest` mocking in `__tests__/main.test.js:12-44` does not match the `@octokit/core` `request` call the code makes. The model follows the code.
