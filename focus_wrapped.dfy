/**
 * The summary page FirstScreen/app/focus-wrapped/page.tsx: three numbers read
 * from the query string with defaults, and the checklist percentage.
 * A non-finite number (NaN or an infinity) is None.
 */
module FocusWrapped {
  import opened Wrappers
  import opened Numerals
  import TimerPage

  /** The query parameters the page reads; None when absent. */
  datatype Query = Query(completed: Option<string>, total: Option<string>, focus: Option<string>, score: Option<string>)

  /** `searchParams.get(name) || fallback`: an absent or empty value gives the fallback. */
  function OrDefault(v: Option<string>, fallback: string): (r: string)
    ensures v.None? || v.value == "" ==> r == fallback
    ensures v.Some? && v.value != "" ==> r == v.value
  {
    if v.Some? && v.value != "" then v.value else fallback
  }

  /** `Math.round(x)`: the nearest integer, halves rounded up. */
  function Round(x: real): (n: int)
    ensures n as real - 0.5 <= x < n as real + 0.5
  {
    (x + 0.5).Floor
  }

  /** `Math.round((completed / total) * 100)`; dividing by zero gives NaN or an infinity. */
  function Percent(completed: Option<int>, total: Option<int>): (p: Option<int>)
    ensures p.Some? <==> completed.Some? && total.Some? && total.value != 0
  {
    if completed.None? || total.None? || total.value == 0 then None
    else Some(Round(completed.value as real / total.value as real * 100.0))
  }

  /** A share of a positive total rounds to a percentage, 100 when all is done. */
  lemma PercentBounds(completed: int, total: int)
    requires 0 <= completed <= total && total > 0
    ensures Percent(Some(completed), Some(total)).Some?
    ensures 0 <= Percent(Some(completed), Some(total)).value <= 100
    ensures completed == total ==> Percent(Some(completed), Some(total)).value == 100
    ensures completed == 0 ==> Percent(Some(completed), Some(total)).value == 0
  {
    var q := completed as real / total as real;
    assert q * total as real == completed as real;
    assert 0.0 <= q <= 1.0 by {
      assert completed as real / total as real <= total as real / total as real;
    }
    if completed == total {
      assert q == 1.0;
      assert Round(q * 100.0) == 100;
    }
  }

  /** `checklistPercentage` as the page writes it: only an absent or empty total becomes 1. */
  function ChecklistPercentageAsWritten(q: Query): (p: Option<int>)
    ensures p.None? <==>
      ParseInt(OrDefault(q.completed, "0")).None? || ParseInt(OrDefault(q.total, "1")) in {None, Some(0)}
  {
    Percent(ParseInt(OrDefault(q.completed, "0")), ParseInt(OrDefault(q.total, "1")))
  }

  /** The total the corrected page divides by: a total of 0 is replaced by 1 too. */
  function SafeTotal(total: Option<int>): (t: Option<int>)
    ensures t.Some? <==> total.Some?
    ensures t.Some? ==> t.value != 0 && (total.value != 0 ==> t.value == total.value)
    ensures total == Some(0) ==> t == Some(1)
  {
    if total == Some(0) then Some(1) else total
  }

  /** `checklistPercentage` with the guard the comment on it promises. */
  function ChecklistPercentage(q: Query): (p: Option<int>)
    ensures p.Some? <==> ParseInt(OrDefault(q.completed, "0")).Some? && ParseInt(OrDefault(q.total, "1")).Some?
  {
    Percent(ParseInt(OrDefault(q.completed, "0")), SafeTotal(ParseInt(OrDefault(q.total, "1"))))
  }

  /** `focusPercentage`: the `focus` parameter read as an integer, 0 when it is absent or empty. */
  function FocusPercentage(q: Query): (p: Option<int>)
    ensures q.focus.None? || q.focus.value == "" ==> p == Some(0)
  {
    ParseZeroOne();
    ParseInt(OrDefault(q.focus, "0"))
  }

  /** `overallScore`: the `score` parameter read as an integer, 0 when it is absent or empty. */
  function OverallScore(q: Query): (p: Option<int>)
    ensures q.score.None? || q.score.value == "" ==> p == Some(0)
  {
    ParseZeroOne();
    ParseInt(OrDefault(q.score, "0"))
  }

  const NoQuery: Query := Query(None, None, None, None)

  lemma ParseZeroOne()
    ensures ParseInt("0") == Some(0) && ParseInt("1") == Some(1)
  {
    ParseIntOfText(0);
    ParseIntOfText(1);
  }

  /** Without query parameters every number is 0. */
  lemma Defaults()
    ensures ChecklistPercentage(NoQuery) == Some(0)
    ensures ChecklistPercentageAsWritten(NoQuery) == Some(0)
    ensures FocusPercentage(NoQuery) == Some(0) && OverallScore(NoQuery) == Some(0)
  {
    DefaultNumbers();
    PercentBounds(0, 1);
  }

  /** The fallbacks read as 0 completed, a total of 1, and 0 for the two scores. */
  lemma DefaultNumbers()
    ensures ParseInt(OrDefault(NoQuery.completed, "0")) == Some(0)
    ensures ParseInt(OrDefault(NoQuery.total, "1")) == Some(1)
    ensures FocusPercentage(NoQuery) == Some(0) && OverallScore(NoQuery) == Some(0)
  {
    ParseZeroOne();
  }

  /** The query string page.tsx builds when its countdown ends. */
  function ReportQuery(r: TimerPage.Report): Query
  {
    Query(Some(IntText(r.completed)), Some(IntText(r.total)), None, None)
  }

  /**
   * The report of a non-empty checklist gives the same finite percentage on
   * both versions; it lies between 0 and 100.
   */
  lemma ReportPercentage(r: TimerPage.Report)
    requires r.completed <= r.total && r.total > 0
    ensures ChecklistPercentage(ReportQuery(r)) == ChecklistPercentageAsWritten(ReportQuery(r))
    ensures ChecklistPercentage(ReportQuery(r)) == Percent(Some(r.completed), Some(r.total))
    ensures 0 <= ChecklistPercentage(ReportQuery(r)).value <= 100
  {
    ReportNumbers(r);
    PercentBounds(r.completed, r.total);
  }

  /** The two numbers of the report query read back as the report's counts. */
  lemma ReportNumbers(r: TimerPage.Report)
    ensures ParseInt(OrDefault(ReportQuery(r).completed, "0")) == Some(r.completed)
    ensures ParseInt(OrDefault(ReportQuery(r).total, "1")) == Some(r.total)
  {
    ReportNumber(r.completed, "0");
    ReportNumber(r.total, "1");
  }

  lemma ReportNumber(n: nat, fallback: string)
    ensures ParseInt(OrDefault(Some(IntText(n)), fallback)) == Some(n)
  {
    ParseIntOfText(n);
  }

  /**
   * As written, the report of an empty checklist ("completed=0&total=0")
   * makes the percentage NaN: "0" is not empty, so the default 1 is not used.
   */
  lemma EmptyChecklistIsNaN()
    ensures ChecklistPercentageAsWritten(ReportQuery(TimerPage.Report(0, 0))).None?
  {
    ReportNumbers(TimerPage.Report(0, 0));
  }

  /** With the guard, every report gives a percentage in [0, 100], and an empty checklist's gives 0. */
  lemma GuardedReportPercentage(r: TimerPage.Report)
    requires r.completed <= r.total
    ensures ChecklistPercentage(ReportQuery(r)).Some?
    ensures 0 <= ChecklistPercentage(ReportQuery(r)).value <= 100
    ensures r.total == 0 ==> ChecklistPercentage(ReportQuery(r)) == Some(0)
  {
    ReportNumbers(r);
    if r.total == 0 {
      PercentBounds(0, 1);
    } else {
      PercentBounds(r.completed, r.total);
    }
  }
}
