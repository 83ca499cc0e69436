/** The reports collected from the tool's output and the rule deciding that a run failed. */
module ToolResult {
  import opened Strings

  /** `gccxml_reports`: the output lines that are not blank, right-stripped, in order. */
  function Reports(lines: seq<string>): seq<string>
  {
    if |lines| == 0 then []
    else Reports(lines[..|lines| - 1])
         + (if IsBlank(lines[|lines| - 1]) then [] else [RStrip(lines[|lines| - 1])])
  }

  /**
   * The output is read in two phases (lines while the process runs, then the rest);
   * collecting reports phase by phase is collecting them over the whole output.
   */
  lemma {:induction false} ReportsAppend(a: seq<string>, b: seq<string>)
    ensures Reports(a + b) == Reports(a) + Reports(b)
  {
    if |b| == 0 {
      assert a + b == a;
    } else {
      var n := |b| - 1;
      assert (a + b)[..|a + b| - 1] == a + b[..n];
      ReportsAppend(a, b[..n]);
    }
  }

  /** Every report is non-empty and does not end in whitespace. */
  lemma {:induction false} ReportsStripped(lines: seq<string>)
    ensures |Reports(lines)| <= |lines|
    ensures forall r :: r in Reports(lines) ==> r != "" && !IsSpace(r[|r| - 1])
  {
    if |lines| > 0 {
      var last := lines[|lines| - 1];
      ReportsStripped(lines[..|lines| - 1]);
      if !IsBlank(last) {
        BlankIffRStripEmpty(last);
        RStripSpec(last);
      }
    }
  }

  /** Every report is the right-stripped form of a non-blank line of the output. */
  lemma {:induction false} ReportsFromLines(lines: seq<string>)
    ensures forall r :: r in Reports(lines) ==>
              exists i :: 0 <= i < |lines| && !IsBlank(lines[i]) && r == RStrip(lines[i])
  {
    if |lines| > 0 {
      var n := |lines| - 1;
      ReportsFromLines(lines[..n]);
      forall r | r in Reports(lines)
        ensures exists i :: 0 <= i < |lines| && !IsBlank(lines[i]) && r == RStrip(lines[i])
      {
        if r in Reports(lines[..n]) {
          var i :| 0 <= i < n && !IsBlank(lines[..n][i]) && r == RStrip(lines[..n][i]);
          assert lines[..n][i] == lines[i];
        } else {
          assert !IsBlank(lines[n]) && r == RStrip(lines[n]);
        }
      }
    }
  }

  /** Every non-blank line of the output yields its report. */
  lemma {:induction false} LinesToReports(lines: seq<string>)
    ensures forall i :: 0 <= i < |lines| && !IsBlank(lines[i]) ==> RStrip(lines[i]) in Reports(lines)
  {
    if |lines| > 0 {
      var n := |lines| - 1;
      LinesToReports(lines[..n]);
      forall i | 0 <= i < n
        ensures lines[..n][i] == lines[i]
      {
      }
    }
  }

  /** There are no reports exactly when every output line is blank. */
  lemma {:induction false} NoReportsIffBlank(lines: seq<string>)
    ensures Reports(lines) == [] <==> forall i :: 0 <= i < |lines| ==> IsBlank(lines[i])
  {
    if |lines| > 0 {
      var n := |lines| - 1;
      NoReportsIffBlank(lines[..n]);
      assert forall i :: 0 <= i < n ==> lines[..n][i] == lines[i];
    }
  }

  /** `gccxml_msg`: the reports joined by the platform's line separator. */
  function Message(linesep: string, reports: seq<string>): string
  {
    Join(linesep, reports)
  }

  /**
   * The decision of `create_xml_file`: with output ignored, a run fails only when the
   * output file is missing; otherwise it fails on any message, a non-zero status or a
   * missing file.
   */
  predicate IsToolError(ignoreOutput: bool, message: string, exitStatus: int, fileExists: bool)
  {
    if ignoreOutput then !fileExists else message != "" || exitStatus != 0 || !fileExists
  }

  /**
   * In terms of the raw output: when output is not ignored, the run fails exactly when
   * some output line is not blank, the status is non-zero, or the file is missing.
   */
  lemma ToolErrorFromOutput(linesep: string, ignoreOutput: bool, lines: seq<string>, exitStatus: int, fileExists: bool)
    requires linesep != ""
    ensures IsToolError(ignoreOutput, Message(linesep, Reports(lines)), exitStatus, fileExists)
        <==> if ignoreOutput then !fileExists
             else (exists i :: 0 <= i < |lines| && !IsBlank(lines[i])) || exitStatus != 0 || !fileExists
  {
    var reports := Reports(lines);
    JoinEmpty(linesep, reports);
    NoReportsIffBlank(lines);
    ReportsStripped(lines);
  }
}
