/** The semantic scan: exact counts over the files that could be checked, and the
    one-line summary whose first words decide what the wake message says. */
module LspCheck {
  import opened Wrappers
  import opened Text

  const SEVERITY_ERROR := 1
  const SEVERITY_WARNING := 2
  const MAX_REPORTED := 5

  /** One diagnostic; a missing or zero severity counts as an error. */
  datatype Diagnostic = Diagnostic(severity: Option<int>, finding: string)

  datatype Answer = NoDiagnostics | Raises | Diagnostics(diags: seq<Diagnostic>)

  /** What the host reports for one file: whether the time budget is spent when its
      turn comes, whether a server is enabled for it, the answer, and whether that
      server is known to be running. */
  datatype FileReport = FileReport(budgetSpent: bool, enabled: bool, answer: Answer, serverRunning: bool)

  datatype ScanResult = ScanResult(
    files: nat, errors: nat, warnings: nat, unavailable: nat, findings: seq<string>, truncated: bool)

  function Severity(d: Diagnostic): int {
    if d.severity.Some? && d.severity.value != 0 then d.severity.value else SEVERITY_ERROR
  }

  function DiagnosticsOf(r: FileReport): seq<Diagnostic> {
    if r.answer.Diagnostics? then r.answer.diags else []
  }

  /** An empty answer proves nothing unless a live server gave it. */
  predicate Checked(r: FileReport) {
    r.enabled && !r.answer.Raises? && (DiagnosticsOf(r) != [] || r.serverRunning)
  }

  /** The files whose turn came within the budget. */
  function Considered(reports: seq<FileReport>): seq<FileReport> {
    if reports == [] || reports[0].budgetSpent then [] else [reports[0]] + Considered(reports[1..])
  }

  /** Every diagnostic of every checked file among the considered ones. */
  function AllDiagnostics(reports: seq<FileReport>): seq<Diagnostic> {
    if reports == [] then []
    else AllDiagnostics(reports[..|reports| - 1])
         + if Checked(reports[|reports| - 1]) then DiagnosticsOf(reports[|reports| - 1]) else []
  }

  function CountChecked(reports: seq<FileReport>): nat {
    if reports == [] then 0
    else CountChecked(reports[..|reports| - 1]) + if Checked(reports[|reports| - 1]) then 1 else 0
  }

  function CountSeverity(ds: seq<Diagnostic>, severity: int): nat {
    if ds == [] then 0
    else CountSeverity(ds[..|ds| - 1], severity) + if Severity(ds[|ds| - 1]) == severity then 1 else 0
  }

  lemma {:induction false} CountSeverityConcat(a: seq<Diagnostic>, b: seq<Diagnostic>, severity: int)
    ensures CountSeverity(a + b, severity) == CountSeverity(a, severity) + CountSeverity(b, severity)
    decreases |b|
  {
    if b == [] {
      assert a + b == a;
    } else {
      assert (a + b)[..|a + b| - 1] == a + b[..|b| - 1];
      CountSeverityConcat(a, b[..|b| - 1], severity);
    }
  }

  /** No error counted exactly when no checked file has one. */
  lemma {:induction false} NoneCountedMeansNone(ds: seq<Diagnostic>, severity: int)
    ensures CountSeverity(ds, severity) == 0 <==> forall d :: d in ds ==> Severity(d) != severity
    decreases |ds|
  {
    if ds == [] {
    } else {
      NoneCountedMeansNone(ds[..|ds| - 1], severity);
      assert ds == ds[..|ds| - 1] + [ds[|ds| - 1]];
    }
  }

  /** The positions whose diagnostic has one of the given severities, as it was sent. */
  function Positions(ds: seq<Diagnostic>, sent: set<Option<int>>): set<nat> {
    set i: nat | i < |ds| && ds[i].severity in sent
  }

  /** What is counted, position by position: as errors the diagnostics of severity 1, and
      those that name none or 0; as warnings those of severity 2. */
  lemma {:induction false} CountsArePositions(ds: seq<Diagnostic>)
    ensures CountSeverity(ds, SEVERITY_ERROR) == |Positions(ds, {None, Some(0), Some(1)})|
    ensures CountSeverity(ds, SEVERITY_WARNING) == |Positions(ds, {Some(2)})|
    decreases |ds|
  {
    if ds == [] {
      assert Positions(ds, {None, Some(0), Some(1)}) == {} && Positions(ds, {Some(2)}) == {};
    } else {
      CountsArePositions(ds[..|ds| - 1]);
      LastPosition(ds, {None, Some(0), Some(1)});
      LastPosition(ds, {Some(2)});
    }
  }

  lemma LastPosition(ds: seq<Diagnostic>, sent: set<Option<int>>)
    requires ds != []
    ensures |Positions(ds, sent)|
         == |Positions(ds[..|ds| - 1], sent)| + if ds[|ds| - 1].severity in sent then 1 else 0
  {
    var last: nat := |ds| - 1;
    if ds[last].severity in sent {
      assert Positions(ds, sent) == Positions(ds[..last], sent) + {last};
    } else {
      assert Positions(ds, sent) == Positions(ds[..last], sent);
    }
  }

  /** The files that were checked: a server is enabled for them, it answered, and either it
      had something to say or it is known to be running. */
  function CheckedFiles(reports: seq<FileReport>): set<nat> {
    set i: nat | i < |reports| && reports[i].enabled && reports[i].answer != Raises
                 && (reports[i].serverRunning || (reports[i].answer.Diagnostics? && reports[i].answer.diags != []))
  }

  lemma {:induction false} CheckedAreThoseFiles(reports: seq<FileReport>)
    ensures CountChecked(reports) == |CheckedFiles(reports)|
    decreases |reports|
  {
    if reports == [] {
      assert CheckedFiles(reports) == {};
    } else {
      var last: nat := |reports| - 1;
      CheckedAreThoseFiles(reports[..last]);
      assert CheckedFiles(reports) == CheckedFiles(reports[..last]) + if Checked(reports[last]) then {last} else {};
    }
  }

  /** Every diagnostic of every checked file takes part, and no other. */
  lemma {:induction false} DiagnosticsAreTheirs(reports: seq<FileReport>, d: Diagnostic)
    ensures d in AllDiagnostics(reports) <==>
              exists i :: i in CheckedFiles(reports) && reports[i].answer.Diagnostics? && d in reports[i].answer.diags
    decreases |reports|
  {
    if reports == [] {
    } else {
      var last: nat := |reports| - 1;
      var before := reports[..last];
      DiagnosticsAreTheirs(before, d);
      assert forall i :: i in CheckedFiles(before) <==> i in CheckedFiles(reports) && i != last;
      if i :| i in CheckedFiles(before) && before[i].answer.Diagnostics? && d in before[i].answer.diags {
        assert i in CheckedFiles(reports) && reports[i] == before[i];
      }
      if i :| i in CheckedFiles(reports) && reports[i].answer.Diagnostics? && d in reports[i].answer.diags {
        assert i != last ==> i in CheckedFiles(before) && before[i] == reports[i];
      }
      if d in DiagnosticsOf(reports[last]) && Checked(reports[last]) { assert last in CheckedFiles(reports); }
    }
  }

  /** The findings are those of the errors, each at the place its error has among them. */
  lemma {:induction false} FindingsInOrder(ds: seq<Diagnostic>, i: nat)
    requires i < |ds| && ds[i].severity in {None, Some(0), Some(1)}
    ensures CountSeverity(ds[..i], SEVERITY_ERROR) < |ErrorFindings(ds)|
    ensures ErrorFindings(ds)[CountSeverity(ds[..i], SEVERITY_ERROR)] == ds[i].finding
    decreases |ds|
  {
    var last := |ds| - 1;
    FindingsAreErrors(ds[..i]);
    if i < last {
      FindingsInOrder(ds[..last], i);
      assert ds[..last][..i] == ds[..i];
    }
  }

  lemma {:induction false} ConsideredPrefix(reports: seq<FileReport>, n: nat)
    requires n <= |reports| && (forall i :: 0 <= i < n ==> !reports[i].budgetSpent)
    requires n < |reports| ==> reports[n].budgetSpent
    ensures Considered(reports) == reports[..n]
    decreases n
  {
    if n == 0 {
    } else {
      ConsideredPrefix(reports[1..], n - 1);
      assert reports[..n] == [reports[0]] + reports[1..][..n - 1];
    }
  }

  lemma OneMoreFile(reports: seq<FileReport>, i: nat)
    requires i < |reports|
    ensures AllDiagnostics(reports[..i + 1])
         == AllDiagnostics(reports[..i]) + if Checked(reports[i]) then DiagnosticsOf(reports[i]) else []
    ensures CountChecked(reports[..i + 1]) == CountChecked(reports[..i]) + if Checked(reports[i]) then 1 else 0
  {
    assert reports[..i + 1][..i] == reports[..i];
  }

  /** What the errors among the diagnostics find, in their order. */
  function ErrorFindings(ds: seq<Diagnostic>): seq<string> {
    if ds == [] then []
    else
      var last := ds[|ds| - 1];
      ErrorFindings(ds[..|ds| - 1]) + if Severity(last) == SEVERITY_ERROR then [last.finding] else []
  }

  lemma {:induction false} FindingsAreErrors(ds: seq<Diagnostic>)
    ensures |ErrorFindings(ds)| == CountSeverity(ds, SEVERITY_ERROR)
    decreases |ds|
  {
    if ds == [] {
    } else {
      FindingsAreErrors(ds[..|ds| - 1]);
    }
  }

  /** The first of the findings, as many as are quoted. */
  function Quoted(findings: seq<string>): seq<string> {
    findings[..Min(|findings|, MAX_REPORTED)]
  }

  lemma OneMoreDiagnostic(before: seq<Diagnostic>, ds: seq<Diagnostic>, i: nat)
    requires i < |ds|
    ensures CountSeverity(ds[..i + 1], SEVERITY_ERROR)
         == CountSeverity(ds[..i], SEVERITY_ERROR) + if Severity(ds[i]) == SEVERITY_ERROR then 1 else 0
    ensures CountSeverity(ds[..i + 1], SEVERITY_WARNING)
         == CountSeverity(ds[..i], SEVERITY_WARNING) + if Severity(ds[i]) == SEVERITY_WARNING then 1 else 0
    ensures ErrorFindings(before + ds[..i + 1])
         == ErrorFindings(before + ds[..i]) + if Severity(ds[i]) == SEVERITY_ERROR then [ds[i].finding] else []
  {
    assert ds[..i + 1][..i] == ds[..i];
    assert (before + ds[..i + 1])[..|before| + i] == before + ds[..i];
  }

  lemma QuoteOneMore(findings: seq<string>, finding: string)
    ensures Quoted(findings + [finding])
         == if |Quoted(findings)| < MAX_REPORTED then Quoted(findings) + [finding] else Quoted(findings)
  {
  }

  /** The tally of one file's diagnostics, added to running counts. `before` are the
      diagnostics already tallied. */
  method Tally(ds: seq<Diagnostic>, errors0: nat, warnings0: nat, findings0: seq<string>, ghost before: seq<Diagnostic>)
    returns (errors: nat, warnings: nat, findings: seq<string>)
    requires findings0 == Quoted(ErrorFindings(before))
    ensures errors == errors0 + CountSeverity(ds, SEVERITY_ERROR)
    ensures warnings == warnings0 + CountSeverity(ds, SEVERITY_WARNING)
    ensures findings == Quoted(ErrorFindings(before + ds))
  {
    errors, warnings, findings := errors0, warnings0, findings0;
    assert before + ds[..0] == before;
    for i := 0 to |ds|
      invariant errors == errors0 + CountSeverity(ds[..i], SEVERITY_ERROR)
      invariant warnings == warnings0 + CountSeverity(ds[..i], SEVERITY_WARNING)
      invariant findings == Quoted(ErrorFindings(before + ds[..i]))
    {
      OneMoreDiagnostic(before, ds, i);
      ghost var quotable := ErrorFindings(before + ds[..i]);
      QuoteOneMore(quotable, ds[i].finding);
      assert quotable + [] == quotable;
      var severity := Severity(ds[i]);
      if severity == SEVERITY_ERROR {
        if |findings| < MAX_REPORTED { findings := findings + [ds[i].finding]; }
        errors := errors + 1;
      } else if severity == SEVERITY_WARNING {
        warnings := warnings + 1;
      }
    }
    assert ds[..|ds|] == ds;
  }

  /**
   The scan. No result means no verdict; otherwise the counts are exact over the
   checked files - never an estimate, however few findings are quoted - and the quoted
   findings are those of the first five errors.
   */
  method Run(service: bool, reports: seq<FileReport>) returns (result: Option<ScanResult>)
    ensures result.None? <==> !service || CountChecked(Considered(reports)) == 0
    ensures result.Some? ==>
              var seen, ds := Considered(reports), AllDiagnostics(Considered(reports));
              && result.value.files == CountChecked(seen)
              && result.value.errors == CountSeverity(ds, SEVERITY_ERROR)
              && result.value.warnings == CountSeverity(ds, SEVERITY_WARNING)
              && result.value.files + result.value.unavailable == |seen|
              && |result.value.findings| == Min(result.value.errors, 5)
              && result.value.findings <= ErrorFindings(ds)
              && (result.value.truncated <==> |seen| < |reports|)
  {
    if !service { return None; }
    var errors, warnings, unavailable, checked := 0, 0, 0, 0;
    var findings, truncated := [], false;
    var i := 0;
    while i < |reports| && !truncated
      invariant 0 <= i <= |reports|
      invariant forall j :: 0 <= j < i ==> !reports[j].budgetSpent
      invariant truncated ==> i < |reports| && reports[i].budgetSpent
      invariant checked == CountChecked(reports[..i]) && checked + unavailable == i
      invariant errors == CountSeverity(AllDiagnostics(reports[..i]), SEVERITY_ERROR)
      invariant warnings == CountSeverity(AllDiagnostics(reports[..i]), SEVERITY_WARNING)
      invariant findings == Quoted(ErrorFindings(AllDiagnostics(reports[..i])))
      decreases |reports| - i, !truncated
    {
      var r := reports[i];
      if r.budgetSpent {
        truncated := true;
      } else {
        OneMoreFile(reports, i);
        var diags := DiagnosticsOf(r);
        if !r.enabled || r.answer.Raises? || (diags == [] && !r.serverRunning) {
          unavailable := unavailable + 1;
          assert AllDiagnostics(reports[..i]) + [] == AllDiagnostics(reports[..i]);
        } else {
          checked := checked + 1;
          CountSeverityConcat(AllDiagnostics(reports[..i]), diags, SEVERITY_ERROR);
          CountSeverityConcat(AllDiagnostics(reports[..i]), diags, SEVERITY_WARNING);
          errors, warnings, findings := Tally(diags, errors, warnings, findings, AllDiagnostics(reports[..i]));
        }
        i := i + 1;
      }
    }
    ConsideredPrefix(reports, i);
    FindingsAreErrors(AllDiagnostics(reports[..i]));
    if checked == 0 { return None; }
    result := Some(ScanResult(checked, errors, warnings, unavailable, findings, truncated));
  }

  // ---- the summary line -----------------------------------------------------------

  function Joined(parts: seq<string>, separator: string): string {
    if parts == [] then ""
    else if |parts| == 1 then parts[0]
    else parts[0] + separator + Joined(parts[1..], separator)
  }

  function FormatSummary(r: ScanResult): string {
    if r.errors == 0 && r.warnings == 0 then
      "no LSP errors detected in " + Dec(r.files) + " touched file(s)"
      + if r.unavailable > 0
        then "; " + Dec(r.unavailable) + " could not be checked (no server, or it did not respond)" else ""
    else
      var parts := (if r.errors > 0 then [Dec(r.errors) + " error(s)"] else [])
                   + if r.warnings > 0 then [Dec(r.warnings) + " warning(s)"] else [];
      "LSP found " + Joined(parts, " and ") + " in " + Dec(r.files) + " touched file(s)"
      + (if r.findings != [] then " \U{2014} " + Joined(r.findings, "; ") else "")
      + (if r.unavailable > 0 then "; " + Dec(r.unavailable) + " file(s) could not be checked" else "")
      + if r.truncated then " [scan truncated by budget]" else ""
  }

  const FOUND := "LSP found"

  const SUMMARY_LIMIT := 600

  /** The summary opens with the counts of the scan. */
  lemma SummaryStatesCounts(r: ScanResult)
    ensures r.errors == 0 && r.warnings == 0 ==>
              "no LSP errors detected in " + Dec(r.files) + " touched file(s)" <= FormatSummary(r)
    ensures r.errors > 0 && r.warnings == 0 ==>
              "LSP found " + (Dec(r.errors) + " error(s)") + " in " + Dec(r.files) + " touched file(s)"
              <= FormatSummary(r)
    ensures r.errors == 0 && r.warnings > 0 ==>
              "LSP found " + (Dec(r.warnings) + " warning(s)") + " in " + Dec(r.files) + " touched file(s)"
              <= FormatSummary(r)
    ensures r.errors > 0 && r.warnings > 0 ==>
              "LSP found " + (Dec(r.errors) + " error(s)" + " and " + (Dec(r.warnings) + " warning(s)"))
              + " in " + Dec(r.files) + " touched file(s)" <= FormatSummary(r)
  {
    var e, w := Dec(r.errors) + " error(s)", Dec(r.warnings) + " warning(s)";
    assert [e] + [] == [e] && [] + [w] == [w] && [e] + [w] == [e, w] && [e, w][1..] == [w];
    assert Joined([e, w], " and ") == e + " and " + w;
  }

  /** Of the summary 600 characters are stored. */
  lemma SummaryIsStored(r: ScanResult)
    ensures |FormatSummary(r)| <= 600 ==> Bound(FormatSummary(r), SUMMARY_LIMIT) == FormatSummary(r)
    ensures |FormatSummary(r)| > 600 ==> Bound(FormatSummary(r), SUMMARY_LIMIT)[..600] == FormatSummary(r)[..600]
  {
    BoundKeepsTheLimit(FormatSummary(r), SUMMARY_LIMIT);
  }

  /** What is stored of a scan, cut to length, opens with the words the wake message
      looks for exactly when the scan counted an error or a warning. */
  lemma SummaryOpensByCounts(r: ScanResult)
    ensures FOUND <= Bound(FormatSummary(r), SUMMARY_LIMIT) <==> r.errors > 0 || r.warnings > 0
  {
    BoundKeepsPrefix(FormatSummary(r), SUMMARY_LIMIT, FOUND);
    if r.errors == 0 && r.warnings == 0 {
      assert FormatSummary(r)[0] == 'n' && FOUND[0] == 'L';
    } else {
      assert FormatSummary(r)[..|FOUND|] == FOUND;
    }
  }
}
