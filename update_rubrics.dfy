// The one-off rewrite of backend-node/services/update_rubrics.py: inside each
// named criteria function, the block from the detailed scoring matrix marker
// up to (not including) the function's end marker is replaced by a call to
// the unified rubric. Reading and writing the file and the progress messages
// are not modelled; the contents are a parameter and a result.

module UpdateRubrics {
  import opened Common

  const MatrixMarker := "=== DETAILED SCORING MATRIX ==="

  /** One entry of the update list: function name, whether certifications count, end marker. */
  datatype Update = Update(funcName: string, includeCerts: bool, endMarker: string)

  /** The functions rewritten, in order. */
  const FunctionsToUpdate: seq<Update> := [
    Update("getDispatcherCriteria", false, "=== FLEXIBILITY PENALTY APPLICATION ==="),
    Update("getServiceTechnicianCriteria", true, "=== EVALUATION INSTRUCTIONS ==="),
    Update("getApprenticeCriteria", true, "=== FINAL INSTRUCTIONS ==="),
    Update("getBookkeeperCriteria", false, "=== FINAL INSTRUCTIONS ==="),
    Update("getSalesRepCriteria", true, "=== FLEXIBILITY PENALTY ==="),
    Update("getWarehouseAssociateCriteria", true, "=== FINAL INSTRUCTIONS ==="),
    Update("getLeadHVACTechnicianCriteria", true, "=== EVALUATION INSTRUCTIONS ==="),
    Update("getAdminAssistantCriteria", false, "=== CRITICAL EVALUATION RULES ==="),
    Update("getCustomerServiceRepCriteria", false, "=== CRITICAL EVALUATION RULES ===")
  ]

  /** The line that replaces the matrix. */
  function RubricCall(includeCerts: bool): string
  {
    "${generateUnifiedScoringRubric(requiredYears, " + (if includeCerts then "true" else "false") + ")}"
  }

  /** The two flags of the scan. */
  datatype Flags = Flags(inFunction: bool, inMatrix: bool)

  const Outside := Flags(false, false)

  /** The line opens the target function: `f"function {func_name}" in line`. */
  predicate IsHeader(u: Update, line: string)
  {
    Contains(line, "function " + u.funcName)
  }

  /** `line.strip() == "=== DETAILED SCORING MATRIX ==="`. */
  predicate IsMatrixStart(line: string)
  {
    PyStrip(line) == MatrixMarker
  }

  /** `line.strip() == end_marker`. */
  predicate IsEnd(u: Update, line: string)
  {
    PyStrip(line) == u.endMarker
  }

  /** The three tests the loop makes of a line. */
  datatype LineKind = LineKind(header: bool, matrixStart: bool, end: bool)

  /** How the rewrite for one function classifies a line. */
  function Classify(u: Update, line: string): (k: LineKind)
    ensures k.header == IsHeader(u, line)
    ensures k.matrixStart == IsMatrixStart(line)
    ensures k.end == IsEnd(u, line)
  {
    LineKind(IsHeader(u, line), IsMatrixStart(line), IsEnd(u, line))
  }

  /** Lines written and the flags: of the whole scan so far, or of one iteration. */
  datatype Scan = Scan(out: seq<string>, flags: Flags)

  /**
   * One iteration of the `while` loop: the lines it appends and the flags
   * after it, given the line's classification and the rubric call.
   */
  function Step(kind: LineKind, call: string, line: string, flags: Flags): Scan
  {
    var inFunction := flags.inFunction || kind.header;
    if inFunction && kind.matrixStart then
      Scan([call, ""], Flags(inFunction, true))
    else if flags.inMatrix then
      if kind.end then Scan([line], Outside) else Scan([], Flags(inFunction, true))
    else
      Scan([line], Flags(inFunction, false))
  }

  /** The scan of the remaining lines, continuing from what has been written so far. */
  function Continue(classify: string -> LineKind, call: string, rest: seq<string>, sofar: Scan): Scan
    decreases |rest|
  {
    if rest == [] then sofar
    else
      var next := Step(classify(rest[0]), call, rest[0], sofar.flags);
      Continue(classify, call, rest[1..], Scan(sofar.out + next.out, next.flags))
  }

  /** The classifier of the rewrite for one function. */
  function Classifier(u: Update): string -> LineKind
  {
    line => Classify(u, line)
  }

  /** The scan of `update_function` over all the lines. */
  function Run(u: Update, lines: seq<string>): Scan
  {
    Continue(Classifier(u), RubricCall(u.includeCerts), lines, Scan([], Outside))
  }

  /** Scanning two blocks of lines is scanning the first and then the second from where it left off. */
  lemma {:induction false} ContinueAppend(classify: string -> LineKind, call: string, a: seq<string>, b: seq<string>,
                                          sofar: Scan)
    ensures Continue(classify, call, a + b, sofar) == Continue(classify, call, b, Continue(classify, call, a, sofar))
    decreases |a|
  {
    if a == [] {
      assert a + b == b;
    } else {
      assert (a + b)[0] == a[0];
      assert (a + b)[1..] == a[1..] + b;
      var next := Step(classify(a[0]), call, a[0], sofar.flags);
      ContinueAppend(classify, call, a[1..], b, Scan(sofar.out + next.out, next.flags));
    }
  }

  /** Lines once written are never taken back: the output only grows at its end. */
  lemma {:induction false} ContinueKeepsOutput(classify: string -> LineKind, call: string, rest: seq<string>,
                                               sofar: Scan)
    ensures Continue(classify, call, rest, sofar).out
            == sofar.out + Continue(classify, call, rest, Scan([], sofar.flags)).out
    ensures Continue(classify, call, rest, sofar).flags == Continue(classify, call, rest, Scan([], sofar.flags)).flags
    decreases |rest|
  {
    if rest != [] {
      var next := Step(classify(rest[0]), call, rest[0], sofar.flags);
      ContinueKeepsOutput(classify, call, rest[1..], Scan(sofar.out + next.out, next.flags));
      ContinueKeepsOutput(classify, call, rest[1..], Scan([] + next.out, next.flags));
      assert [] + next.out == next.out;
    }
  }

  /** Lines outside the target function, before its header, pass through unchanged. */
  lemma {:induction false} NoHeaderUnchanged(classify: string -> LineKind, call: string, lines: seq<string>,
                                             written: seq<string>)
    requires forall j :: 0 <= j < |lines| ==> !classify(lines[j]).header
    ensures Continue(classify, call, lines, Scan(written, Outside)) == Scan(written + lines, Outside)
    decreases |lines|
  {
    if lines != [] {
      NoHeaderUnchanged(classify, call, lines[1..], written + [lines[0]]);
      assert written + [lines[0]] + lines[1..] == written + lines;
    } else {
      assert written + lines == written;
    }
  }

  /** Inside the function but before its matrix, lines are kept. */
  lemma {:induction false} BeforeMatrixKept(classify: string -> LineKind, call: string, lines: seq<string>,
                                            written: seq<string>)
    requires forall j :: 0 <= j < |lines| ==> !classify(lines[j]).matrixStart
    ensures Continue(classify, call, lines, Scan(written, Flags(true, false))) == Scan(written + lines, Flags(true, false))
    decreases |lines|
  {
    if lines != [] {
      BeforeMatrixKept(classify, call, lines[1..], written + [lines[0]]);
      assert written + [lines[0]] + lines[1..] == written + lines;
    } else {
      assert written + lines == written;
    }
  }

  /** Inside the matrix, lines that are neither marker are dropped. */
  lemma {:induction false} MatrixDropped(classify: string -> LineKind, call: string, lines: seq<string>,
                                         written: seq<string>)
    requires forall j :: 0 <= j < |lines| ==> !classify(lines[j]).matrixStart && !classify(lines[j]).end
    ensures Continue(classify, call, lines, Scan(written, Flags(true, true))) == Scan(written, Flags(true, true))
    decreases |lines|
  {
    if lines != [] {
      MatrixDropped(classify, call, lines[1..], written + []);
      assert written + [] == written;
    }
  }

  /** The scan up to and including the matrix marker: everything before it kept, the marker replaced. */
  lemma ThroughMatrixMarker(classify: string -> LineKind, call: string, pre: seq<string>, header: string,
                            mid: seq<string>, marker: string)
    requires forall j :: 0 <= j < |pre| ==> !classify(pre[j]).header
    requires classify(header).header && !classify(header).matrixStart
    requires forall j :: 0 <= j < |mid| ==> !classify(mid[j]).matrixStart
    requires classify(marker).matrixStart
    ensures Continue(classify, call, pre + [header] + mid + [marker], Scan([], Outside))
            == Scan(pre + [header] + mid + [call, ""], Flags(true, true))
  {
    var start := Scan([], Outside);
    NoHeaderUnchanged(classify, call, pre, []);
    assert [] + pre == pre;
    ContinueAppend(classify, call, pre, [header], start);
    BeforeMatrixKept(classify, call, mid, pre + [header]);
    ContinueAppend(classify, call, pre + [header], mid, start);
    ContinueAppend(classify, call, pre + [header] + mid, [marker], start);
  }

  /** The matrix of a function replaced, for any classification of the lines. */
  lemma ReplacedWith(classify: string -> LineKind, call: string, pre: seq<string>, header: string, mid: seq<string>,
                     marker: string, body: seq<string>, end: string, post: seq<string>)
    requires forall j :: 0 <= j < |pre| ==> !classify(pre[j]).header
    requires classify(header).header && !classify(header).matrixStart
    requires forall j :: 0 <= j < |mid| ==> !classify(mid[j]).matrixStart
    requires classify(marker).matrixStart
    requires forall j :: 0 <= j < |body| ==> !classify(body[j]).matrixStart && !classify(body[j]).end
    requires classify(end).end && !classify(end).matrixStart
    ensures Continue(classify, call, pre + [header] + mid + [marker] + body + [end] + post, Scan([], Outside)).out
            == pre + [header] + mid + [call, ""] + [end] + Continue(classify, call, post, Scan([], Outside)).out
  {
    var start := Scan([], Outside);
    var upToMarker := pre + [header] + mid + [marker];
    var kept := pre + [header] + mid + [call, ""];
    ThroughMatrixMarker(classify, call, pre, header, mid, marker);
    MatrixDropped(classify, call, body, kept);
    ContinueAppend(classify, call, upToMarker, body, start);
    ContinueAppend(classify, call, upToMarker + body, [end], start);
    assert Continue(classify, call, upToMarker + body + [end], start) == Scan(kept + [end], Outside);
    ContinueAppend(classify, call, upToMarker + body + [end], post, start);
    ContinueKeepsOutput(classify, call, post, Scan(kept + [end], Outside));
  }

  /**
   * The rewrite of one function: matrix markers before its header are left
   * alone; the first line at or after the header that strips to the matrix
   * marker becomes the rubric call and a blank line; the lines after it are
   * dropped up to the end marker, which is kept, and the scan leaves the
   * function so that the rest is treated as before the header.
   */
  lemma MatrixReplaced(u: Update, pre: seq<string>, header: string, mid: seq<string>, marker: string,
                       body: seq<string>, end: string, post: seq<string>)
    requires forall j :: 0 <= j < |pre| ==> !IsHeader(u, pre[j])
    requires IsHeader(u, header) && !IsMatrixStart(header)
    requires forall j :: 0 <= j < |mid| ==> !IsMatrixStart(mid[j])
    requires IsMatrixStart(marker)
    requires forall j :: 0 <= j < |body| ==> !IsMatrixStart(body[j]) && !IsEnd(u, body[j])
    requires IsEnd(u, end) && !IsMatrixStart(end)
    ensures Run(u, pre + [header] + mid + [marker] + body + [end] + post).out
            == pre + [header] + mid + [RubricCall(u.includeCerts), ""] + [end] + Run(u, post).out
  {
    ReplacedWith(Classifier(u), RubricCall(u.includeCerts), pre, header, mid, marker, body, end, post);
  }

  /** Without its end marker, every line after the matrix marker is dropped. */
  lemma MissingEndMarker(u: Update, pre: seq<string>, header: string, mid: seq<string>, marker: string,
                         rest: seq<string>)
    requires forall j :: 0 <= j < |pre| ==> !IsHeader(u, pre[j])
    requires IsHeader(u, header) && !IsMatrixStart(header)
    requires forall j :: 0 <= j < |mid| ==> !IsMatrixStart(mid[j])
    requires IsMatrixStart(marker)
    requires forall j :: 0 <= j < |rest| ==> !IsMatrixStart(rest[j]) && !IsEnd(u, rest[j])
    ensures Run(u, pre + [header] + mid + [marker] + rest).out
            == pre + [header] + mid + [RubricCall(u.includeCerts), ""]
  {
    var classify, call := Classifier(u), RubricCall(u.includeCerts);
    ThroughMatrixMarker(classify, call, pre, header, mid, marker);
    MatrixDropped(classify, call, rest, pre + [header] + mid + [call, ""]);
    ContinueAppend(classify, call, pre + [header] + mid + [marker], rest, Scan([], Outside));
  }

  /** Some line contains the function's header. */
  function HeaderIn(u: Update, lines: seq<string>): bool
    decreases |lines|
  {
    lines != [] && (IsHeader(u, lines[0]) || HeaderIn(u, lines[1..]))
  }

  lemma {:induction false} HeaderInIff(u: Update, lines: seq<string>)
    ensures HeaderIn(u, lines) <==> exists j :: 0 <= j < |lines| && IsHeader(u, lines[j])
    decreases |lines|
  {
    if lines != [] {
      HeaderInIff(u, lines[1..]);
      if HeaderIn(u, lines[1..]) {
        var j :| 0 <= j < |lines[1..]| && IsHeader(u, lines[1..][j]);
        assert IsHeader(u, lines[j + 1]);
      }
      if exists j :: 0 <= j < |lines| && IsHeader(u, lines[j]) {
        var j :| 0 <= j < |lines| && IsHeader(u, lines[j]);
        if j > 0 {
          assert IsHeader(u, lines[1..][j - 1]);
        }
      }
    }
  }

  /**
   * `update_function(content, func_name, include_certs, end_marker)` on the
   * split lines: the new lines, and whether the header was seen (the
   * warning when it was not is not modelled).
   */
  method UpdateLines(u: Update, lines: seq<string>) returns (newLines: seq<string>, found: bool)
    ensures newLines == Run(u, lines).out
    ensures found <==> exists j :: 0 <= j < |lines| && IsHeader(u, lines[j])
  {
    newLines := [];
    var inFunction := false;
    var inMatrix := false;
    found := false;
    var i := 0;
    while i < |lines|
      invariant 0 <= i <= |lines|
      invariant Continue(Classifier(u), RubricCall(u.includeCerts), lines[i..], Scan(newLines, Flags(inFunction, inMatrix)))
                == Run(u, lines)
      invariant (found || HeaderIn(u, lines[i..])) == HeaderIn(u, lines)
    {
      var line := lines[i];
      var kind := Classify(u, line);
      ghost var next := Step(kind, RubricCall(u.includeCerts), line, Flags(inFunction, inMatrix));
      assert lines[i..][0] == line && lines[i..][1..] == lines[i + 1..];
      assert Classifier(u)(line) == kind;
      assert Continue(Classifier(u), RubricCall(u.includeCerts), lines[i + 1..], Scan(newLines + next.out, next.flags))
             == Run(u, lines);
      if kind.header {
        inFunction := true;
        found := true;
      }
      if inFunction && kind.matrixStart {
        inMatrix := true;
        newLines := newLines + [RubricCall(u.includeCerts), ""];
        i := i + 1;
        continue;
      }
      if inMatrix {
        if kind.end {
          inMatrix := false;
          inFunction := false;
          newLines := newLines + [line];
        } else {
          assert newLines + next.out == newLines;
        }
        i := i + 1;
        continue;
      }
      newLines := newLines + [line];
      i := i + 1;
    }
    HeaderInIff(u, lines);
  }

  /** `content.split('\n')`. */
  function Lines(content: string): seq<string>
  {
    SplitAt(content, '\n')
  }

  /** The whole rewrite of one function on the file's text. */
  function UpdateContent(u: Update, content: string): string
  {
    Join(Run(u, Lines(content)).out, "\n")
  }

  /** A file without the function's header is written back exactly as it was read. */
  lemma UnchangedWithoutHeader(u: Update, content: string)
    requires forall j :: 0 <= j < |Lines(content)| ==> !IsHeader(u, Lines(content)[j])
    ensures UpdateContent(u, content) == content
  {
    var lines := Lines(content);
    forall j | 0 <= j < |lines|
      ensures !Classifier(u)(lines[j]).header
    {
      assert !IsHeader(u, lines[j]);
    }
    NoHeaderUnchanged(Classifier(u), RubricCall(u.includeCerts), lines, []);
    assert [] + Lines(content) == Lines(content);
    SplitJoin(content, '\n');
  }

  /** `main`: the functions of the list rewritten one after the other. */
  function UpdateAll(content: string, updates: seq<Update>): string
    decreases |updates|
  {
    if updates == [] then content else UpdateAll(UpdateContent(updates[0], content), updates[1..])
  }

  /** The loop of `main` over an update list (`FunctionsToUpdate` in the script). */
  method ApplyUpdates(content: string, updates: seq<Update>) returns (result: string)
    ensures result == UpdateAll(content, updates)
  {
    result := content;
    var k := 0;
    while k < |updates|
      invariant 0 <= k <= |updates|
      invariant UpdateAll(result, updates[k..]) == UpdateAll(content, updates)
    {
      var u := updates[k];
      assert updates[k..][0] == u && updates[k..][1..] == updates[k + 1..];
      var lines, found := UpdateLines(u, Lines(result));
      result := Join(lines, "\n");
      k := k + 1;
    }
  }

  /** A list whose functions all are missing from the file leaves it as it was. */
  lemma {:induction false} UpdateAllWithoutHeaders(content: string, updates: seq<Update>)
    requires forall k, j :: 0 <= k < |updates| && 0 <= j < |Lines(content)| ==> !IsHeader(updates[k], Lines(content)[j])
    ensures UpdateAll(content, updates) == content
    decreases |updates|
  {
    if updates != [] {
      UnchangedWithoutHeader(updates[0], content);
      UpdateAllWithoutHeaders(content, updates[1..]);
    }
  }
}
