/** The runnable identity matcher: does a test execution in a browser refer to
    the same logical test as a reference execution captured earlier? Identity is
    structural (browser, file, full title), never object identity. */
module Matchers {
  import opened Runnables

  /** The structural identity of a test run in a browser. */
  datatype Identity = Identity(browser: string, file: string, fullTitle: string)

  function IdentityOf(test: TestRef, browser: string): Identity {
    Identity(browser, test.file, test.fullTitle)
  }

  /** A matcher stores the reference browser, the reference test's file and the
      reference test itself; its fields are set once and never updated. */
  datatype Matcher = Matcher(browser: string, file: string, storedTest: TestRef)
  {
    /** `test(test, browser)`: same browser, same file, same full title. */
    predicate Test(test: TestRef, browser: string) {
      browser == this.browser
      && test.file == this.file
      && test.fullTitle == storedTest.fullTitle
    }
  }

  /** `Matcher.create(test, browser)`: the matcher of the constructor. It accepts
      exactly the executions whose identity equals the reference's. */
  function Create(test: TestRef, browser: string): (m: Matcher)
    ensures m.Test(test, browser)
    ensures forall t, b :: m.Test(t, b) <==> IdentityOf(t, b) == IdentityOf(test, browser)
  {
    Matcher(browser, test.file, test)
  }

  /** A matcher never accepts an execution in another browser, whatever the test. */
  lemma OtherBrowserNeverMatches(test: TestRef, browser: string, t: TestRef, b: string)
    requires b != browser
    ensures !Create(test, browser).Test(t, b)
  {
  }

  /** Matching is symmetric: swapping reference and candidate gives the same answer. */
  lemma MatchSymmetric(t1: TestRef, b1: string, t2: TestRef, b2: string)
    ensures Create(t1, b1).Test(t2, b2) == Create(t2, b2).Test(t1, b1)
  {
  }

  /** Matching is transitive, so it partitions executions into identity classes. */
  lemma MatchTransitive(t1: TestRef, b1: string, t2: TestRef, b2: string, t3: TestRef, b3: string)
    requires Create(t1, b1).Test(t2, b2) && Create(t2, b2).Test(t3, b3)
    ensures Create(t1, b1).Test(t3, b3)
  {
  }

  /** The candidate's own `browserId` tag plays no part: only the browser argument does. */
  lemma MatchIgnoresCandidateTag(test: TestRef, browser: string, t: TestRef, tag: string, b: string)
    ensures Create(test, browser).Test(t.(browserId := tag), b) == Create(test, browser).Test(t, b)
  {
  }
}
