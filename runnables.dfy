/** The runnable tree the test-definition adapter hands to the retry runner:
    leaf tests, hooks and suites, as immutable snapshots of one pass. */
module Runnables {

  datatype Option<+T> = None | Some(value: T)

  /** A leaf test as the retry machinery sees it: its source `file`, its
      `fullTitle()` and the `browserId` it is tagged with. */
  datatype TestRef = TestRef(file: string, fullTitle: string, browserId: string)

  /** A node of the tree. Only `Test` has `type === 'test'`; a `Hook` has
      neither `suites` nor `tests`; a `Suite` lists its nested suites and its
      direct tests. */
  datatype Runnable =
    | Test(ref: TestRef)
    | Hook(title: string, browserId: string)
    | Suite(title: string, suites: seq<Runnable>, tests: seq<Runnable>, browserId: string)
  {
    /** The node's `browserId` property. */
    function BrowserId(): string {
      if Test? then ref.browserId else browserId
    }
  }

  /** Reference definition of "t is a leaf test transitively reachable from r". */
  ghost predicate HasLeaf(r: Runnable, t: TestRef)
    decreases r
  {
    match r
    case Test(ref) => ref == t
    case Hook(_, _) => false
    case Suite(_, ss, ts, _) =>
      (exists i :: 0 <= i < |ss| && HasLeaf(ss[i], t)) ||
      (exists i :: 0 <= i < |ts| && HasLeaf(ts[i], t))
  }
}
