/**
 * The analysing test script: an analyser that records one result per endpoint test and then
 * summarises the records into counts, a success rate, error categories and a list of
 * recommendations. Response times are floating-point and are left out; whether their average
 * exceeds 20 seconds is an input to the analysis.
 */
module TestComprehensive {
  import opened Wrappers
  import opened Text
  import opened Seqs

  /** One recorded test: its name, whether it succeeded, the error text (when any), the preview
    * data and the ISO timestamp taken when the result was added. */
  datatype TestRecord = TestRecord(name: string, success: bool, error: Option<string>, data: Option<string>, timestamp: string)

  datatype Recommendation = Recommendation(issue: string, solution: string, priority: string)

  datatype Summary = Summary(total: nat, passed: nat, failed: int, successRate: string)

  datatype ErrorCounts = ErrorCounts(rateLimit: nat, timeout: nat, other: int)

  datatype Analysis = Analysis(summary: Summary, errors: ErrorCounts, recommendations: seq<Recommendation>)

  const RateLimitAdvice := Recommendation("Rate limiting detected", "Increase delay between requests to 15-20 seconds", "HIGH")
  const SlowAdvice := Recommendation("Slow response times", "Enable streaming output or reduce max_tokens", "MEDIUM")
  const TimeoutAdvice := Recommendation("Timeout errors", "Increase timeout or optimize prompts", "HIGH")
  const AllPassedAdvice := Recommendation("All tests passed", "Ready for production deployment", "INFO")

  // ---------------------------------------------------------------- counts

  predicate Succeeded(r: TestRecord)
  {
    r.success
  }

  /** `r["error"]` is truthy: present and not empty. */
  predicate HasError(r: TestRecord)
  {
    r.error.Some? && r.error.value != ""
  }

  /** `r["error"] and "429" in str(r["error"])`. */
  predicate IsRateLimit(r: TestRecord)
  {
    HasError(r) && Contains(r.error.value, "429")
  }

  /** `r["error"] and "timeout" in str(r["error"]).lower()`. */
  predicate IsTimeout(r: TestRecord)
  {
    HasError(r) && Contains(Lower(r.error.value), "timeout")
  }

  predicate EitherCategory(r: TestRecord)
  {
    IsRateLimit(r) || IsTimeout(r)
  }

  predicate BothCategories(r: TestRecord)
  {
    IsRateLimit(r) && IsTimeout(r)
  }

  /** A failure whose error falls in neither category. */
  predicate Unclassified(r: TestRecord)
  {
    !r.success && !IsRateLimit(r) && !IsTimeout(r)
  }

  function Passed(results: seq<TestRecord>): (n: nat)
    ensures n <= |results|
  {
    Count(results, Succeeded)
  }

  function RateLimitErrors(results: seq<TestRecord>): nat
  {
    Count(results, IsRateLimit)
  }

  function TimeoutErrors(results: seq<TestRecord>): nat
  {
    Count(results, IsTimeout)
  }

  /** `failed - rate_limit_errors - timeout_errors`, which Python keeps as a plain integer. */
  function OtherErrors(results: seq<TestRecord>): int
  {
    (|results| - Passed(results)) - RateLimitErrors(results) - TimeoutErrors(results)
  }

  /** The analysis the script prints, given whether the average response time exceeds 20s. */
  function AnalysisOf(results: seq<TestRecord>, slow: bool): Analysis
  {
    var total := |results|;
    var passed := Passed(results);
    var rate := RateLimitErrors(results);
    var timeout := TimeoutErrors(results);
    Analysis(
      Summary(total, passed, total - passed, Percent(passed, total)),
      ErrorCounts(rate, timeout, OtherErrors(results)),
      Recommendations(rate, slow, timeout, passed == total))
  }

  /** The recommendations in the order the script appends them. */
  function Recommendations(rate: nat, slow: bool, timeout: nat, allPassed: bool): seq<Recommendation>
  {
    (if rate > 0 then [RateLimitAdvice] else []) +
    (if slow then [SlowAdvice] else []) +
    (if timeout > 0 then [TimeoutAdvice] else []) +
    (if allPassed then [AllPassedAdvice] else [])
  }

  // ---------------------------------------------------------------- the analyser

  class TestAnalyzer {
    var results: seq<TestRecord>

    constructor()
      ensures results == []
    {
      results := [];
    }

    /** Appends one record stamped with `timestamp`. */
    method AddResult(name: string, success: bool, error: Option<string>, data: Option<string>, timestamp: string)
      modifies this
      ensures results == old(results) + [TestRecord(name, success, error, data, timestamp)]
    {
      results := results + [TestRecord(name, success, error, data, timestamp)];
    }

    /** Counts the records, then appends the recommendations one condition at a time. */
    method Analyze(slow: bool) returns (a: Analysis)
      ensures a == AnalysisOf(results, slow)
    {
      var total := |results|;
      var passed := Passed(results);
      var rate := RateLimitErrors(results);
      var timeout := TimeoutErrors(results);
      var recommendations: seq<Recommendation> := [];
      if rate > 0 {
        recommendations := recommendations + [RateLimitAdvice];
      }
      assert recommendations == (if rate > 0 then [RateLimitAdvice] else []);
      ghost var upToRate := recommendations;
      if slow {
        recommendations := recommendations + [SlowAdvice];
      }
      assert recommendations == upToRate + (if slow then [SlowAdvice] else []);
      ghost var upToSlow := recommendations;
      if timeout > 0 {
        recommendations := recommendations + [TimeoutAdvice];
      }
      assert recommendations == upToSlow + (if timeout > 0 then [TimeoutAdvice] else []);
      ghost var upToTimeout := recommendations;
      if passed == total {
        recommendations := recommendations + [AllPassedAdvice];
      }
      assert recommendations == upToTimeout + (if passed == total then [AllPassedAdvice] else []);
      a := Analysis(
        Summary(total, passed, total - passed, Percent(passed, total)),
        ErrorCounts(rate, timeout, OtherErrors(results)),
        recommendations);
    }
  }

  // ---------------------------------------------------------------- properties

  /** Adding one record moves each count by that record alone. */
  lemma AddResultCounts(results: seq<TestRecord>, r: TestRecord)
    ensures Passed(results + [r]) == Passed(results) + (if r.success then 1 else 0)
    ensures RateLimitErrors(results + [r]) == RateLimitErrors(results) + (if IsRateLimit(r) then 1 else 0)
    ensures TimeoutErrors(results + [r]) == TimeoutErrors(results) + (if IsTimeout(r) then 1 else 0)
  {
    CountConcat(results, [r], Succeeded);
    CountConcat(results, [r], IsRateLimit);
    CountConcat(results, [r], IsTimeout);
  }

  /** Passed and failed add up to the total and failed is never negative; the success rate is
    * `passed * 100 // total` followed by "%", "0%" without records and "100%" when every
    * record succeeded. */
  lemma SummaryCounts(results: seq<TestRecord>, slow: bool)
    ensures var s := AnalysisOf(results, slow).summary;
      s.passed + s.failed == s.total == |results| && s.failed >= 0 &&
      (|results| == 0 ==> s.successRate == "0%") &&
      (s.failed == 0 <==> forall i :: 0 <= i < |results| ==> results[i].success) &&
      (|results| > 0 && s.failed == 0 ==> s.successRate == "100%") &&
      (|results| > 0 ==> s.successRate == NatToString(Scaled(s.passed, s.total)) + "%")
  {
    var s := AnalysisOf(results, slow).summary;
    assert s.passed == Count(results, Succeeded);
  }

  /** The two categories counted separately: an error in both categories is counted twice. */
  lemma {:induction false} CategoriesOverlap(results: seq<TestRecord>)
    ensures RateLimitErrors(results) + TimeoutErrors(results) ==
      Count(results, EitherCategory) + Count(results, BothCategories)
  {
    if results != [] {
      CategoriesOverlap(results[1..]);
    }
  }

  /** When successes carry no error and no error falls in both categories, `other` counts
    * exactly the failures in neither category. */
  lemma {:induction false} OtherCountsUnclassified(results: seq<TestRecord>)
    requires forall i :: 0 <= i < |results| && results[i].success ==> !HasError(results[i])
    requires forall i :: 0 <= i < |results| ==> !BothCategories(results[i])
    ensures OtherErrors(results) == Count(results, Unclassified)
  {
    if results != [] {
      assert forall i :: 1 <= i < |results| ==> results[1..][i - 1] == results[i];
      OtherCountsUnclassified(results[1..]);
    }
  }

  /** A failure whose error falls in both categories is subtracted twice: alone it leaves
    * `other` at -1. */
  lemma BothSubtractedTwice(r: TestRecord)
    requires !r.success && BothCategories(r)
    ensures OtherErrors([r]) == -1
  {
    assert [r][1..] == [];
  }

  /** The error "429 timeout" falls in both categories, so a failure reporting it makes
    * `other` negative. */
  lemma OtherGoesNegative(timestamp: string)
    ensures OtherErrors([TestRecord("search", false, Some("429 timeout"), None, timestamp)]) == -1
  {
    ErrorInBothCategories();
    BothSubtractedTwice(TestRecord("search", false, Some("429 timeout"), None, timestamp));
  }

  lemma ErrorInBothCategories()
    ensures Contains("429 timeout", "429") && Contains(Lower("429 timeout"), "timeout")
  {
    var t := "timeout";
    assert StartsWith("429 timeout", "429");
    assert "429 timeout" == "429 " + t;
    StartsWithAppend(t, "");
    assert t + "" == t;
    ContainsInTail("429 ", t, t);
    assert forall k :: 0 <= k < |t| ==> LowerChar(t[k]) == t[k];
    ContainsLower("429 timeout", t);
  }

  /** Each recommendation appears exactly when its condition holds, at most once; the
    * rate-limit one comes first when present and the "all passed" one last. */
  lemma RecommendationRules(rate: nat, slow: bool, timeout: nat, allPassed: bool)
    ensures var recs := Recommendations(rate, slow, timeout, allPassed);
      (RateLimitAdvice in recs <==> rate > 0) &&
      (SlowAdvice in recs <==> slow) &&
      (TimeoutAdvice in recs <==> timeout > 0) &&
      (AllPassedAdvice in recs <==> allPassed) &&
      NoDuplicates(recs) &&
      (rate > 0 ==> recs[0] == RateLimitAdvice) &&
      (allPassed ==> recs[|recs| - 1] == AllPassedAdvice)
  {
    assert RateLimitAdvice.issue[0] == 'R' && SlowAdvice.issue[0] == 'S';
    assert TimeoutAdvice.issue[0] == 'T' && AllPassedAdvice.issue[0] == 'A';
  }

  /** The analysis lists the rate-limit and timeout advice exactly when such errors were
    * counted, and the "all passed" advice, last, exactly when every record succeeded. */
  lemma AnalysisRecommendations(results: seq<TestRecord>, slow: bool)
    ensures var recs := AnalysisOf(results, slow).recommendations;
      (RateLimitAdvice in recs <==> RateLimitErrors(results) > 0) &&
      (TimeoutAdvice in recs <==> TimeoutErrors(results) > 0) &&
      (AllPassedAdvice in recs <==> forall i :: 0 <= i < |results| ==> results[i].success) &&
      ((forall i :: 0 <= i < |results| ==> results[i].success) ==> recs[|recs| - 1] == AllPassedAdvice)
  {
    assert Passed(results) == Count(results, Succeeded);
    RecommendationRules(RateLimitErrors(results), slow, TimeoutErrors(results), Passed(results) == |results|);
  }

  /** With no records every test counts as passed: the only recommendation is "all passed"
    * (besides the slow one, which cannot apply without times). */
  lemma NoRecordsAllPassed()
    ensures AnalysisOf([], false).recommendations == [AllPassedAdvice]
    ensures AnalysisOf([], false).summary.successRate == "0%"
  {
  }
}
