/** The retry-aware runner of one browser's test tree. It owns the retry
    budget and the pass state, reacts to every failure signal of a pass, and
    after the pass re-runs exactly the enqueued tests while budget remains.
    The adapter that builds and executes the tree is replaced by the failure
    signals each pass produces, and emitting an event by appending to `events`. */
module MochaRunner {
  import opened Runnables
  import opened RetrySpec

  class InsistantMochaRunner {
    const paths: seq<string>
    const browserId: string
    /** `_retriesLeft`: the remaining retry budget. */
    var retriesLeft: nat
    /** `_tests.toRun`: the inclusion filter of the current pass (empty: run all). */
    var toRun: seq<TestRef>
    /** `_tests.toRetry`: the tests enqueued for the next pass. */
    var toRetry: seq<TestRef>
    /** `_injectors.titles`: the registry the duplicate-title validator fills. */
    var titles: map<string, string>
    /** Everything emitted so far, in order. */
    var events: seq<Event>

    /** Only a pass with budget left enqueues tests, so a non-empty retry list
        always has budget to spend. */
    ghost predicate Valid()
      reads this
    {
      toRetry != [] ==> retriesLeft > 0
    }

    /** The budget comes from the browser's configuration, `retryFor(browserId)`. */
    constructor (paths: seq<string>, browserId: string, retryFor: string -> nat, titles: map<string, string>)
      ensures Valid()
      ensures this.paths == paths && this.browserId == browserId
      ensures retriesLeft == retryFor(browserId)
      ensures toRun == [] && toRetry == [] && this.titles == titles && events == []
    {
      this.paths := paths;
      this.browserId := browserId;
      this.titles := titles;
      retriesLeft := retryFor(browserId);
      toRun, toRetry, events := [], [], [];
    }

    /** `run(testsToRun)`: a fresh pass state, one pass whose failures are the
        first entry of `script`, then `_retry` with the rest of the script. */
    method Run(testsToRun: seq<TestRef>, script: seq<seq<Signal>>) returns (passes: nat)
      requires ScriptAttributed(script, retriesLeft)
      modifies this
      decreases retriesLeft, 1
      ensures Valid()
      ensures var o := RunSpec(old(retriesLeft), testsToRun, old(events), script);
        retriesLeft == o.retriesLeft && toRun == o.toRun && toRetry == o.toRetry &&
        events == o.events && passes == o.passes
      ensures titles == if passes == 1 then old(titles) else map[]
    {
      var pass := Head(script);
      if retriesLeft > 0 {
        ScriptAttributedSplit(script, retriesLeft);
      }
      toRun, toRetry := testsToRun, [];
      RunPass(pass);
      assert toRetry == [] ==>
        RunSpec(retriesLeft, testsToRun, old(events), script) == Settled(retriesLeft, toRun, [], events, 1);
      var more := Retry(Tail(script));
      passes := more + 1;
    }

    /** One pass of the adapter: each failure signal reaches its listener in
        order, so the last one is dispatched after all the others. */
    method RunPass(signals: seq<Signal>)
      requires retriesLeft > 0 ==> PassAttributed(signals)
      modifies this`toRetry, this`events
      decreases |signals|
      ensures toRetry == old(toRetry) + EnqueuedAll(retriesLeft, signals)
      ensures events == old(events) + Verdicts(retriesLeft, signals)
    {
      if signals == [] {
        return;
      }
      var last := |signals| - 1;
      RunPass(signals[..last]);
      Dispatch(signals[last]);
    }

    /** The three listeners attached to the adapter. */
    method Dispatch(sig: Signal)
      requires retriesLeft > 0 ==> Attributed(sig)
      modifies this`toRetry, this`events
      ensures toRetry == old(toRetry) + Enqueued(retriesLeft, sig)
      ensures events == old(events) + [Verdict(retriesLeft, sig)]
    {
      match sig
      case TestFailed(f) => HandleTestFail(f);
      case SuiteFailed(f) => HandleSuiteFail(f);
      case AdapterError(e, f) => HandleError(e, f);
    }

    /** `_handleTestFail`: a failure from a hook retries the hook's parent
        suite, any other the failed test. */
    method HandleTestFail(failed: Failed)
      modifies this`toRetry, this`events
      ensures var target := if failed.hookParent.Some? then failed.hookParent.value else failed.runnable;
        if retriesLeft == 0 then
          toRetry == old(toRetry) && events == old(events) + [TestFailEvent(failed)]
        else
          toRetry == old(toRetry) + Flatten(target, target.BrowserId()) &&
          events == old(events) + [RetryEvent(failed, retriesLeft - 1, None)]
    {
      HandleFail(TestFailEvent(failed), failed,
                 Some(if failed.hookParent.Some? then failed.hookParent.value else failed.runnable));
    }

    /** `_handleSuiteFail`: retries `failed.parent`. */
    method HandleSuiteFail(failed: Failed)
      requires retriesLeft > 0 ==> failed.parent.Some?
      modifies this`toRetry, this`events
      ensures retriesLeft == 0 ==>
        toRetry == old(toRetry) && events == old(events) + [SuiteFailEvent(failed)]
      ensures retriesLeft > 0 ==>
        toRetry == old(toRetry) + Flatten(failed.parent.value, failed.parent.value.BrowserId()) &&
        events == old(events) + [RetryEvent(failed, retriesLeft - 1, None)]
    {
      HandleFail(SuiteFailEvent(failed), failed, failed.parent);
    }

    /** `_handleFail`: with no budget the failure is emitted unchanged under its
        own event; otherwise the runnable's tests are enqueued and one retry
        event carries the budget minus one. The budget itself is not touched. */
    method HandleFail(terminal: Event, failed: Failed, runnable: Option<Runnable>)
      requires retriesLeft > 0 ==> runnable.Some?
      modifies this`toRetry, this`events
      ensures retriesLeft == 0 ==> toRetry == old(toRetry) && events == old(events) + [terminal]
      ensures retriesLeft > 0 ==>
        toRetry == old(toRetry) + Flatten(runnable.value, runnable.value.BrowserId()) &&
        events == old(events) + [RetryEvent(failed, retriesLeft - 1, None)]
    {
      if retriesLeft == 0 {
        events := events + [terminal];
        return;
      }
      AddTestsToRetry(runnable.value, runnable.value.BrowserId());
      events := events + [RetryEvent(failed, retriesLeft - 1, None)];
    }

    /** `_handleError`: an error without a parent, or any error once the budget
        is spent, is emitted as an error; otherwise the parent's tests are
        enqueued and one retry event carries the budget minus one and `err`. */
    method HandleError(error: string, failed: Failed)
      modifies this`toRetry, this`events
      ensures failed.parent.None? || retriesLeft == 0 ==>
        toRetry == old(toRetry) && events == old(events) + [ErrorEvent(error, failed)]
      ensures failed.parent.Some? && retriesLeft > 0 ==>
        toRetry == old(toRetry) + Flatten(failed.parent.value, failed.parent.value.BrowserId()) &&
        events == old(events) + [RetryEvent(failed, retriesLeft - 1, Some(error))]
    {
      if failed.parent.None? || retriesLeft == 0 {
        events := events + [ErrorEvent(error, failed)];
        return;
      }
      AddTestsToRetry(failed.parent.value, failed.parent.value.BrowserId());
      events := events + [RetryEvent(failed, retriesLeft - 1, Some(error))];
    }

    /** `_addTestsToRetry`: pushes a test tagged with `browserId`, or walks the
        nested suites and then the direct tests of a suite. */
    method AddTestsToRetry(runnable: Runnable, browserId: string)
      modifies this`toRetry
      decreases runnable
      ensures toRetry == old(toRetry) + Flatten(runnable, browserId)
    {
      match runnable
      case Test(ref) =>
        toRetry := toRetry + [ref.(browserId := browserId)];
      case Hook(_, _) =>
      case Suite(_, ss, ts, _) =>
        var children := ss + ts;
        assert forall k :: 0 <= k < |children| ==> children[k] < runnable;
        for i := 0 to |children|
          invariant toRetry == old(toRetry) + FlattenAll(children[..i], browserId, runnable)
        {
          FlattenAllSnoc(children[..i + 1], browserId, runnable);
          assert children[..i + 1][..i] == children[..i];
          AddTestsToRetry(children[i], browserId);
        }
        assert children[..|children|] == children;
        FlattenAllAppend(ss, ts, browserId, runnable);
    }

    /** `_shouldRun(test, browserId)`: the inclusion filter of the current pass. */
    function ShouldRun(test: TestRef, browserId: string): bool
      reads this
    {
      Admits(toRun, test, browserId)
    }

    /** `_retry`: nothing to retry settles the run; otherwise one unit of budget
        is spent, the title registry is emptied, and the enqueued tests become
        the next run's filter. */
    method Retry(script: seq<seq<Signal>>) returns (passes: nat)
      requires Valid()
      requires retriesLeft > 0 ==> ScriptAttributed(script, retriesLeft - 1)
      modifies this
      decreases retriesLeft, 0
      ensures Valid()
      ensures old(toRetry) == [] ==>
        passes == 0 && retriesLeft == old(retriesLeft) && toRun == old(toRun) && toRetry == [] &&
        events == old(events) && titles == old(titles)
      ensures old(toRetry) != [] ==>
        var o := RunSpec(old(retriesLeft) - 1, old(toRetry), old(events), script);
        retriesLeft == o.retriesLeft && toRun == o.toRun && toRetry == o.toRetry &&
        events == o.events && passes == o.passes && titles == map[]
    {
      if toRetry == [] {
        return 0;
      }
      retriesLeft := retriesLeft - 1;
      titles := map[];
      passes := Run(toRetry, script);
    }
  }
}
