# Retry-aware test runner: a verified Dafny model

This project models the retry core of a cross-browser test runner. There are three parts:

- **The insistant runner** (`InsistantMochaRunner`). It runs one browser's test tree. It reacts to every
  test, suite/hook and adapter failure: either it reports the failure unchanged, or it puts the failing
  runnable's subtree on a retry list and emits a `RETRY` event. After a pass, it re-runs exactly the
  tests on that list, spending one unit of its retry budget per extra pass.
- **The runnable identity matcher.** It decides whether a test execution in a browser is the same
  logical test as a reference execution. It compares browser, file and full title.
- **The configuration value parsers and validators.** These are `is(type)`, `parseBoolean`, the
  positive and non-negative integer validators (the retry budget is a non-negative integer option),
  and the "optional function / plain object" predicates.

Files and modules:

- `runnables.dfy` (`Runnables`): the test tree as values. A node is a leaf `Test`, a `Hook` or a
  `Suite` with nested suites and direct tests. `HasLeaf` is the reference definition of "a leaf test
  reachable from a node".
- `matcher.dfy` (`Matchers`): the matcher as a datatype whose fields are set once. `Test` is its
  predicate.
- `config_util.dfy` (`ConfigUtil`): JavaScript values as a datatype. A number is either an integer or
  a non-integer, which is all `Number.isInteger` can tell. This module also holds the parsers and
  validators and the default retry budget (0).
- `retry_spec.dfy` (`RetrySpec`): the runner's behaviour as pure functions. `Flatten` is subtree
  flattening. `Admits` is the inclusion filter. `Verdict` and `Enqueued` give the event and the retry
  entries for one failure. `Verdicts` and `EnqueuedAll` do the same for one pass. `RunSpec` gives the
  state a whole run settles in. The lemmas prove the retry guarantees from these functions.
- `insistant_mocha_runner.dfy` (`MochaRunner`): the runner as a class. It has the mutable fields
  `retriesLeft`, `toRun`, `toRetry`, `titles` and an event log `events`. Its methods (`Run`, `Retry`,
  the failure handlers and `AddTestsToRetry`) update these fields in place. Each method is proved to
  produce exactly the state that the `RetrySpec` functions describe.

The model represents a pass by the sequence of failure signals the adapter delivers during that pass.
A whole run is represented by a script with one such sequence per pass; a pass beyond the end of the
script has no failures. Emitting an event means appending it to `events`.

Two details of the code that the model keeps:

- A run settles only when the retry list is empty (lib/runner/mocha-runner/insistant-mocha-runner.js:122).
  There is no separate budget check. The class invariant `Valid` shows none is needed: a non-empty
  retry list always has budget left.
- The coordinator shares one `titles` registry object among all runners of a run
  (lib/runner/mocha-runner/index.js:28-32). A runner only replaces its own reference with an empty
  registry before a retry pass, and that is what the model does.

## Model

| member | source | states |
|---|---|---|
| Matchers.Create | lib/retry-manager/matcher.js:6-20 | the created matcher accepts its own reference execution, and it accepts exactly the executions with the same browser, file and full title |
| Matchers.OtherBrowserNeverMatches | lib/retry-manager/matcher.js:12-16 | an execution in a different browser is never matched, whatever the test |
| Matchers.MatchSymmetric | lib/retry-manager/matcher.js:12-16 | swapping the reference and the candidate does not change the answer |
| Matchers.MatchTransitive | lib/retry-manager/matcher.js:12-16 | matching is transitive, so structural identity is an equivalence |
| Matchers.MatchIgnoresCandidateTag | lib/retry-manager/matcher.js:12-16 | only the browser argument is compared, never the candidate's own browserId tag |
| ConfigUtil.IsRejectsExactlyOtherTypes | lib/config/util.js:10-16 | `is(type)(v)` throws iff `typeof v !== type`, with the message "value must be a <type>" |
| ConfigUtil.IsBooleanAcceptsOnlyBooleans | lib/config/util.js:37-44 | the boolean options' validator accepts exactly booleans |
| ConfigUtil.IsObjectAcceptsNull | lib/config/util.js:10-16 | `is('object')` accepts null, because `typeof null` is "object" |
| ConfigUtil.ToLowerIsWord | lib/config/util.js:22-23 | lower-casing a string yields a lower-case word iff the string is that word in some letter case |
| ConfigUtil.ParseBooleanCases | lib/config/util.js:22-34 | the result is true iff the input is "1", "yes" or "true" in any case; false iff it is "0", "no" or "false" in any case; the two sets are disjoint; every other string is rejected with a message naming it |
| ConfigUtil.ParseBooleanIgnoresCase | lib/config/util.js:22-31 | two accepted strings that differ only in letter case parse to the same boolean |
| ConfigUtil.ParseBooleanRoundTrip | lib/config/util.js:22-31 | parsing "true" or "false" gives back the boolean |
| ConfigUtil.PositiveIntegerAccepts | lib/config/util.js:50-57 | accepts iff the value is an integer above zero; a non-integer gets the "integer" error before any sign check |
| ConfigUtil.NonNegativeIntegerAccepts | lib/config/util.js:65-72 | accepts iff the value is an integer from zero up; a non-integer gets the "integer" error before any sign check |
| ConfigUtil.PositiveVersusNonNegative | lib/config/util.js:46-74 | whatever the positive validator accepts, the non-negative one accepts too; the only value they disagree on is 0 |
| ConfigUtil.DefaultRetryValidation | lib/config/defaults.js:18 | the default retry budget 0 passes the non-negative validator and fails the positive one |
| ConfigUtil.OptionalPredicatesOnNull | lib/config/util.js:78-80 | both optional predicates accept null and reject undefined |
| RetrySpec.FlattenTagsBrowser | lib/runner/mocha-runner/insistant-mocha-runner.js:105-111 | every entry of the flattened subtree is tagged with the browser passed down the walk, whatever browser the test had |
| RetrySpec.FlattenAllAppend | lib/runner/mocha-runner/insistant-mocha-runner.js:109 | walking nested suites and then direct tests flattens the suites first, then the tests |
| RetrySpec.FlattenIsLeaves | lib/runner/mocha-runner/insistant-mocha-runner.js:105-111 | an entry is in the flattening iff it is a leaf test reachable from the node, retagged with the browser; only tests are ever added |
| RetrySpec.FlattenLength | lib/runner/mocha-runner/insistant-mocha-runner.js:105-111 | the flattening has exactly one entry per leaf test |
| RetrySpec.Admits | lib/runner/mocha-runner/insistant-mocha-runner.js:113-119 | the filter accepts everything when toRun is empty; otherwise it is the OR, over toRun, of the matcher built from each entry |
| RetrySpec.AbsentTestNotRun | lib/runner/mocha-runner/insistant-mocha-runner.js:113-119 | with a non-empty toRun, a test whose identity is not in toRun is not run |
| RetrySpec.RetryFilterIsFailedSubtree | lib/runner/mocha-runner/insistant-mocha-runner.js:105-119 | a filter made from a flattened subtree admits exactly the tests with the identity of a leaf of that subtree, in that browser |
| RetrySpec.ReactionToFailure | lib/runner/mocha-runner/insistant-mocha-runner.js:78-103 | with budget 0, a failure is emitted unchanged under its own event and nothing is enqueued; with budget left, an attributable failure becomes one RETRY carrying the budget minus one; an error without a parent is always an ERROR and enqueues nothing |
| RetrySpec.TestFailureEnqueues | lib/runner/mocha-runner/insistant-mocha-runner.js:70-72 | a hook failure enqueues the tests of the hook's parent suite; any other test failure enqueues exactly the failed test |
| RetrySpec.Verdicts | lib/runner/mocha-runner/insistant-mocha-runner.js:59-61 | a pass emits exactly as many events as it has failure signals |
| RetrySpec.VerdictsInOrder | lib/runner/mocha-runner/insistant-mocha-runner.js:59-61 | the i-th event of a pass is the verdict on its i-th failure signal: one event per failure, in order, none dropped |
| RetrySpec.EnqueuedAll | lib/runner/mocha-runner/insistant-mocha-runner.js:78-103 | a pass with budget 0 enqueues nothing |
| RetrySpec.EnqueuedComeFromRetriedFailures | lib/runner/mocha-runner/insistant-mocha-runner.js:84-97 | every enqueued test comes from the subtree of a failure that was retried in that pass |
| RetrySpec.EnqueuedAllHoldsEach | lib/runner/mocha-runner/insistant-mocha-runner.js:84-111 | everything any failure of a pass enqueues is on that pass's retry list |
| RetrySpec.EnqueuedAllEmpty | lib/runner/mocha-runner/insistant-mocha-runner.js:78-111 | a pass's retry list is empty iff no failure in it enqueued anything |
| RetrySpec.NextPassRunsOnlyFailedWork | lib/runner/mocha-runner/insistant-mocha-runner.js:105-130 | the next pass's filter admits only tests that are, in the right browser, leaves under a failure retried in this pass |
| RetrySpec.FailedWorkRunsNextPass | lib/runner/mocha-runner/insistant-mocha-runner.js:105-130 | conversely, every leaf test under a failure retried in this pass is admitted by the next pass's filter, in the failed subtree's browser: the whole failed subset is re-run |
| RetrySpec.RunSpec | lib/runner/mocha-runner/insistant-mocha-runner.js:121-130 | a run takes between 1 and budget + 1 passes and spends exactly one unit of budget per extra pass, so the budget never goes negative; it settles with an empty retry list; it only appends to the log; a single-pass run keeps its filter and its budget; suite failures need a parent only on passes that still have budget |
| RetrySpec.NoBudgetSinglePass | lib/runner/mocha-runner/insistant-mocha-runner.js:78-82 | with budget 0, a run is one pass and emits no RETRY event |
| RetrySpec.UnattributedErrorsSettle | lib/runner/mocha-runner/insistant-mocha-runner.js:91-95 | adapter errors without a parent become ERROR events, spend no budget and start no retry pass |
| RetrySpec.RetryWithoutTestsSettles | lib/runner/mocha-runner/insistant-mocha-runner.js:84-124 | a retried suite failure whose parent suite holds no tests emits RETRY with the budget minus one but enqueues nothing, so the run settles after one pass with no final failure event and the budget unspent |
| RetrySpec.PersistentFailure | lib/runner/mocha-runner/insistant-mocha-runner.js:78-130 | with budget r, a test that fails on every pass produces r RETRY events (r-1 down to 0), then one TEST_FAIL, over r + 1 passes |
| RetrySpec.RecoveredFailure | lib/runner/mocha-runner/insistant-mocha-runner.js:78-130 | with budget r >= 1, a test that fails once and then passes produces one RETRY carrying r - 1 and no final failure, over two passes, with r - 1 budget left |
| MochaRunner.InsistantMochaRunner.constructor | lib/runner/mocha-runner/insistant-mocha-runner.js:18-27 | the budget is the configured retry value for the runner's browser; the source creates no pass state until `run`, which the model represents as empty lists |
| MochaRunner.InsistantMochaRunner.Run | lib/runner/mocha-runner/insistant-mocha-runner.js:29-37 | resets toRun to the argument and toRetry to empty, runs a pass, then retries; the final state, log and pass count are those of RunSpec; the title registry is emptied iff a retry pass ran |
| MochaRunner.InsistantMochaRunner.RunPass | lib/runner/mocha-runner/insistant-mocha-runner.js:35-36 | after a pass, the retry list has grown by exactly what the pass's failures enqueue and the log by their verdicts, in signal order; the budget is unchanged; suite failures need a parent only when budget remains |
| MochaRunner.InsistantMochaRunner.Dispatch | lib/runner/mocha-runner/insistant-mocha-runner.js:59-61 | each failure signal reaches its listener, which enqueues and emits exactly what Enqueued and Verdict say |
| MochaRunner.InsistantMochaRunner.HandleTestFail | lib/runner/mocha-runner/insistant-mocha-runner.js:70-72 | a hook failure retries the hook's parent suite and any other failure the test itself; with budget 0 it emits TEST_FAIL unchanged |
| MochaRunner.InsistantMochaRunner.HandleSuiteFail | lib/runner/mocha-runner/insistant-mocha-runner.js:74-76 | retries failed.parent; with budget 0 it emits SUITE_FAIL unchanged |
| MochaRunner.InsistantMochaRunner.HandleFail | lib/runner/mocha-runner/insistant-mocha-runner.js:78-89 | with budget 0, emits the failure unchanged and leaves toRetry alone; otherwise appends the runnable's flattened subtree and emits one RETRY carrying the budget minus one; it never changes the budget |
| MochaRunner.InsistantMochaRunner.HandleError | lib/runner/mocha-runner/insistant-mocha-runner.js:91-103 | an error without a parent, or any error with budget 0, is emitted as ERROR and leaves toRetry alone; otherwise the parent's subtree is enqueued and RETRY carries err and the budget minus one |
| MochaRunner.InsistantMochaRunner.AddTestsToRetry | lib/runner/mocha-runner/insistant-mocha-runner.js:105-111 | appends in place exactly the flattening of the runnable: the test tagged with the browser, or the leaves of the nested suites and then of the direct tests |
| MochaRunner.InsistantMochaRunner.Retry | lib/runner/mocha-runner/insistant-mocha-runner.js:121-130 | with an empty retry list nothing changes and no pass starts; otherwise it spends exactly one unit of budget, empties the title registry and runs with the old retry list as the filter |

## Left out

- The test-definition adapter (`MochaAdapter`) is not part of this model. That covers building the
  tree from files, applying the filter and the skip evaluator, the duplicate-title validator, and
  acquiring and releasing the browser. A pass is modelled only by the failure signals it delivers.
  Nothing ties those signals to the filter, so the "not re-run" lemmas are about the filter itself.
- `initMocha`'s passthrough of non-failure events (file read, suite/test begin and end, pass,
  pending, info, warning) is left out. The log holds only the failure-shaped events this core
  produces.
- Promise chaining and asynchrony are left out. Passes run one after another, as in the source, and
  nothing else is concurrent inside a runner.
- The fan-out coordinator (lib/runner/mocha-runner/index.js) runs one runner per path concurrently and
  builds suite trees without running them. It is outside this core.
- The static `init` and `create` of the runner are not modelled separately. `create` only calls the
  constructor, which is modelled.
- `_.extend` mutates the payload object that the adapter also holds. The model emits a new value
  (the payload plus `retriesLeft` and `err`), so that aliasing is not captured. In the same way, a
  tagged test is a new value, not the adapter's test object with its `browserId` overwritten.
- `_.union` removes children that are the same object. Values have no object identity, so the model
  uses plain concatenation; a suite's child lists hold distinct objects anyway.
- A matcher stores the reference test and calls its `fullTitle()` on every match. The model stores the
  full title as a value, so a later change to the reference object is not reflected. Because the
  matcher is a value, `test` cannot change the stored fields.
- MochaRunner.InsistantMochaRunner.HandleSuiteFail: requires `failed.parent` when budget remains.
  The source dereferences it there and would throw a TypeError without it.
- RetrySpec.RunSpec: requires a parent on every suite failure of a pass that has budget left. The
  source throws a TypeError there and the adapter rejects the run; the model has no rejected run.
  `Run` and `Retry` require the same.
- RetrySpec.Verdict: a suite failure without a parent on a pass with budget left is reported as
  SUITE_FAIL. The source throws there instead; no run of `RunSpec` or of the class reaches that input.
- `toLowerCase` is modelled on the letters A-Z only. Other characters are kept as they are, and no
  other character lower-cases to one of the accepted words.
- JavaScript numbers appear only as "integer" or "non-integer". `Number` parsing of CLI and
  environment strings (floating point) is not modelled, and neither are `bigint` values.
- `resolveWithProjectDir` (current directory, path resolution) is left out. So are the configparser
  `option`/`map` wrappers `booleanOption`, `positiveIntegerOption`, `nonNegativeIntegerOption` and
  `anyObject`. Their `validate` functions are modelled.
- The per-browser configuration lookup `config.forBrowser(id).retry` is a parameter of the constructor.
  The model assumes it was accepted by the non-negative validator, so the budget is a `nat`.
