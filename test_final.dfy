/**
 * The final test script: one POST per endpoint, a pass/fail rule on the reply, a result list
 * with its summary, and the recommendation band printed from the summary. Elapsed times are
 * floating-point and are left out; the POST's outcome is an input.
 */
module TestFinal {
  import opened Wrappers
  import opened Text
  import opened Seqs
  import opened Json

  /** One stored result: the test name, whether it passed and the error value (`JNull` for
    * Python's `None`). */
  datatype TestEntry = TestEntry(name: string, success: bool, error: Json)

  datatype Summary = Summary(total: nat, passed: nat, failed: int, successRate: string)

  /** What the POST gave the test: a status with the decoded JSON object, or the text of the
    * exception it raised (connection error, timeout, a body that is not JSON). */
  datatype Exchange = Responded(status: int, body: map<string, Json>) | Raised(message: string)

  const ErrorTextLength := 100

  predicate Succeeded(e: TestEntry)
  {
    e.success
  }

  predicate Failing(e: TestEntry)
  {
    !e.success
  }

  /** Every entry either passed or failed. */
  lemma {:induction false} PassedOrFailed(results: seq<TestEntry>)
    ensures Count(results, Succeeded) + Count(results, Failing) == |results|
  {
    if results != [] {
      PassedOrFailed(results[1..]);
    }
  }

  /** `TestResults.analyze` without the average time. */
  function SummaryOf(results: seq<TestEntry>): (s: Summary)
    ensures s.total == |results| && s.passed <= s.total
    ensures s.failed == s.total - s.passed == Count(results, Failing)
    ensures s.total == 0 ==> s.successRate == "0%"
    ensures s.total > 0 && s.failed == 0 ==> s.successRate == "100%"
    ensures s.total > 0 ==> s.successRate == NatToString(Scaled(s.passed, s.total)) + "%"
  {
    var total := |results|;
    var passed := Count(results, Succeeded);
    PassedOrFailed(results);
    Summary(total, passed, total - passed, Percent(passed, total))
  }

  class TestResults {
    var results: seq<TestEntry>

    constructor()
      ensures results == []
    {
      results := [];
    }

    /** Appends one entry. */
    method Add(name: string, success: bool, error: Json)
      modifies this
      ensures results == old(results) + [TestEntry(name, success, error)]
    {
      results := results + [TestEntry(name, success, error)];
    }

    function Analyze(): Summary
      reads this
    {
      SummaryOf(results)
    }
  }

  /** Adding an entry adds one to the total, and one to passed exactly when it passed. */
  lemma AddCounts(results: seq<TestEntry>, e: TestEntry)
    ensures SummaryOf(results + [e]).total == SummaryOf(results).total + 1
    ensures SummaryOf(results + [e]).passed == SummaryOf(results).passed + (if e.success then 1 else 0)
  {
    CountConcat(results, [e], Succeeded);
  }

  // ---------------------------------------------------------------- the test rule

  /** The entry `test` stores: passed for status 200 with a truthy `success` field; the reply's
    * `error` field for a 200 without one; "HTTP <code>" for any other status; and the first
    * 100 characters of the exception's text. */
  function EntryFor(name: string, x: Exchange): TestEntry
  {
    match x
    case Responded(status, body) =>
      if status == 200 then
        if PyTruthy(FieldOr(body, "success", JBool(false))) then TestEntry(name, true, JNull)
        else TestEntry(name, false, FieldOr(body, "error", JNull))
      else TestEntry(name, false, JStr("HTTP " + IntToString(status)))
    case Raised(message) => TestEntry(name, false, JStr(Take(message, ErrorTextLength)))
  }

  /** The body of `test` after the POST: store the entry and report whether it passed. */
  method Test(results: TestResults, name: string, x: Exchange) returns (passed: bool)
    modifies results
    ensures results.results == old(results.results) + [EntryFor(name, x)]
    ensures passed == EntryFor(name, x).success
  {
    if x.Raised? {
      results.Add(name, false, JStr(Take(x.message, ErrorTextLength)));
      return false;
    }
    if x.status != 200 {
      results.Add(name, false, JStr("HTTP " + IntToString(x.status)));
      return false;
    }
    var success := FieldOr(x.body, "success", JBool(false));
    if PyTruthy(success) {
      results.Add(name, true, JNull);
      return true;
    }
    results.Add(name, false, FieldOr(x.body, "error", JNull));
    return false;
  }

  /** A test passes only on status 200 whose reply has `success` set to a truthy value; a
    * `success` of `true` passes and a missing or `false` one fails. */
  lemma PassRule(name: string, x: Exchange)
    ensures EntryFor(name, x).success ==> x.Responded? && x.status == 200 && "success" in x.body
    ensures x.Responded? && x.status == 200 && "success" in x.body && x.body["success"] == JBool(true) ==>
      EntryFor(name, x).success
    ensures x.Responded? && ("success" !in x.body || x.body["success"] == JBool(false)) ==>
      !EntryFor(name, x).success
    ensures EntryFor(name, x).name == name
  {
  }

  /** A passed entry carries no error; a raised exception's text is stored cut to its first 100
    * characters, whole when shorter; another status is stored as "HTTP " and its code. */
  lemma ErrorText(name: string, x: Exchange)
    ensures EntryFor(name, x).success ==> EntryFor(name, x).error == JNull
    ensures x.Raised? ==>
      EntryFor(name, x).error.JStr? &&
      |EntryFor(name, x).error.s| <= ErrorTextLength &&
      StartsWith(x.message, EntryFor(name, x).error.s) &&
      (|x.message| <= ErrorTextLength ==> EntryFor(name, x).error.s == x.message)
    ensures x.Responded? && x.status != 200 ==>
      EntryFor(name, x).error.JStr? && StartsWith(EntryFor(name, x).error.s, "HTTP ")
  {
  }

  // ---------------------------------------------------------------- the recommendation band

  datatype Band = AllPassed | MostPassed | ManyFailures

  /** `passed == total`, else `passed >= total * 0.7`, read exactly as 10·passed ≥ 7·total. */
  function BandOf(passed: nat, total: nat): Band
  {
    if passed == total then AllPassed
    else if 10 * passed >= 7 * total then MostPassed
    else ManyFailures
  }

  function BandRank(b: Band): nat
  {
    match b
    case ManyFailures => 0
    case MostPassed => 1
    case AllPassed => 2
  }

  /** With no results the band is "all passed"; for the same total, more passed tests never
    * give a worse band, and only all of them give "all passed". */
  lemma BandMonotone(p: nat, q: nat, total: nat)
    requires p <= q <= total
    ensures BandOf(0, 0) == AllPassed
    ensures BandRank(BandOf(p, total)) <= BandRank(BandOf(q, total))
    ensures BandOf(q, total) == AllPassed <==> q == total
  {
  }

  /** Seven of ten is "most", six of ten is not; two of three falls short of 2.1. */
  lemma BandThreshold()
    ensures BandOf(7, 10) == MostPassed && BandOf(6, 10) == ManyFailures
    ensures BandOf(2, 3) == ManyFailures && BandOf(3, 4) == MostPassed
  {
  }

  /** The band read off a summary: "all passed" exactly when no entry failed. */
  lemma SummaryBand(results: seq<TestEntry>)
    ensures BandOf(SummaryOf(results).passed, SummaryOf(results).total) == AllPassed <==>
      forall i :: 0 <= i < |results| ==> results[i].success
  {
    assert SummaryOf(results).passed == Count(results, Succeeded);
  }
}
