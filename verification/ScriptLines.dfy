/** The lines of a `.task` script: what each one is, and the forward scans over them
    (source/tools_task_script.cpp). */
module ScriptLines {
  import opened Options

  // ---- What a line is ----

  function LowerChar(c: char): char {
    if 'A' <= c <= 'Z' then c - 'A' + 'a' else c
  }

  /** Whether a line starts with a marker, upper and lower case alike; `marker` is in lower case. */
  predicate StartsWith(line: string, marker: string) {
    && |marker| <= |line|
    && forall k :: 0 <= k < |marker| ==> LowerChar(line[k]) == marker[k]
  }

  /** What a line is to the scans for the end of an [IF] block. */
  datatype Mark = IfMark | ElseMark | MaybeMark | EndifMark | SubEdge | NoMark

  function MarkOf(line: string): Mark {
    if StartsWith(line, "[endsub]") || StartsWith(line, "[sub:") then SubEdge
    else if StartsWith(line, "[if]") then IfMark
    else if StartsWith(line, "[endif]") then EndifMark
    else if StartsWith(line, "[else]") then ElseMark
    else if StartsWith(line, "[maybe]") then MaybeMark
    else NoMark
  }

  /** What a line is to the machine that runs the script. */
  datatype Command =
    | Pause | Ask | Run | WaitForResult | Print | FileIn | FileAppend
    | KeyboardInput(on: bool) | TtsOutput(on: bool) | EchoInput(on: bool)
    | End | Gosub(name: string) | Sub | Return | If | SkipToEndif | Endif | Plain

  /** Starts with a marker that ends in a colon, and ends with the closing bracket. */
  predicate Bracketed(line: string, marker: string) {
    StartsWith(line, marker) && line != "" && line[|line| - 1] == ']'
  }

  /** The text between a marker and the closing bracket. */
  function Inside(line: string, start: nat): string
    requires start < |line|
  {
    line[start..|line| - 1]
  }

  function Classify(line: string): Command {
    if StartsWith(line, "[pause]") then Pause
    else if StartsWith(line, "[ask]") || StartsWith(line, "[ask:") then Ask
    else if Bracketed(line, "[run:") then Run
    else if StartsWith(line, "[wait_for_result]") then WaitForResult
    else if StartsWith(line, "[print]") then Print
    else if Bracketed(line, "[file_in:") then FileIn
    else if Bracketed(line, "[file_append:") then FileAppend
    else if Bracketed(line, "[keyboard_input:") then KeyboardInput(Inside(line, |"[keyboard_input:"|) == "on")
    else if Bracketed(line, "[tts_output:") then TtsOutput(Inside(line, |"[tts_output:"|) == "on")
    else if Bracketed(line, "[echo_input:") then EchoInput(Inside(line, |"[echo_input:"|) == "on")
    else if StartsWith(line, "[end]") then End
    else if Bracketed(line, "[gosub:") then Gosub(Inside(line, |"[gosub:"|))
    else if Bracketed(line, "[sub:") then Sub
    else if StartsWith(line, "[return]") || StartsWith(line, "[endsub]") then Return
    else if StartsWith(line, "[if]") then If
    else if StartsWith(line, "[else]") || StartsWith(line, "[maybe]") then SkipToEndif
    else if StartsWith(line, "[endif]") then Endif
    else Plain
  }

  predicate CharIs(line: string, k: nat, c: char) {
    k < |line| && LowerChar(line[k]) == c
  }

  lemma {:induction false} MarkerChar(line: string, marker: string, k: nat)
    requires k < |marker|
    ensures StartsWith(line, marker) ==> CharIs(line, k, marker[k])
  {
  }

  /** No two markers share all of the letters listed here. */
  lemma {:induction false} MarkerLetters(line: string)
    ensures StartsWith(line, "[pause]") ==> CharIs(line, 1, 'p')
    ensures StartsWith(line, "[ask]") ==> CharIs(line, 1, 'a')
    ensures StartsWith(line, "[ask:") ==> CharIs(line, 1, 'a')
    ensures StartsWith(line, "[run:") ==> CharIs(line, 1, 'r') && CharIs(line, 2, 'u')
    ensures StartsWith(line, "[wait_for_result]") ==> CharIs(line, 1, 'w')
    ensures StartsWith(line, "[print]") ==> CharIs(line, 1, 'p')
    ensures StartsWith(line, "[file_in:") ==> CharIs(line, 1, 'f')
    ensures StartsWith(line, "[file_append:") ==> CharIs(line, 1, 'f')
    ensures StartsWith(line, "[keyboard_input:") ==> CharIs(line, 1, 'k')
    ensures StartsWith(line, "[tts_output:") ==> CharIs(line, 1, 't')
    ensures StartsWith(line, "[echo_input:") ==> CharIs(line, 1, 'e') && CharIs(line, 2, 'c')
    ensures StartsWith(line, "[end]") ==> CharIs(line, 1, 'e') && CharIs(line, 2, 'n') && CharIs(line, 4, ']')
    ensures StartsWith(line, "[gosub:") ==> CharIs(line, 1, 'g')
    ensures StartsWith(line, "[sub:") ==> CharIs(line, 1, 's')
    ensures StartsWith(line, "[return]") ==> CharIs(line, 1, 'r') && CharIs(line, 2, 'e')
    ensures StartsWith(line, "[endsub]") ==> CharIs(line, 1, 'e') && CharIs(line, 2, 'n') && CharIs(line, 4, 's')
    ensures StartsWith(line, "[if]") ==> CharIs(line, 1, 'i')
    ensures StartsWith(line, "[else]") ==> CharIs(line, 1, 'e') && CharIs(line, 2, 'l')
    ensures StartsWith(line, "[maybe]") ==> CharIs(line, 1, 'm')
    ensures StartsWith(line, "[endif]") ==> CharIs(line, 1, 'e') && CharIs(line, 2, 'n') && CharIs(line, 4, 'i')
  {
    hide StartsWith, CharIs;
    MarkerChar(line, "[pause]", 1);
    MarkerChar(line, "[ask]", 1);
    MarkerChar(line, "[ask:", 1);
    MarkerChar(line, "[run:", 1);
    MarkerChar(line, "[run:", 2);
    MarkerChar(line, "[wait_for_result]", 1);
    MarkerChar(line, "[print]", 1);
    MarkerChar(line, "[file_in:", 1);
    MarkerChar(line, "[file_append:", 1);
    MarkerChar(line, "[keyboard_input:", 1);
    MarkerChar(line, "[tts_output:", 1);
    MarkerChar(line, "[echo_input:", 1);
    MarkerChar(line, "[echo_input:", 2);
    MarkerChar(line, "[end]", 1);
    MarkerChar(line, "[end]", 2);
    MarkerChar(line, "[end]", 4);
    MarkerChar(line, "[gosub:", 1);
    MarkerChar(line, "[sub:", 1);
    MarkerChar(line, "[return]", 1);
    MarkerChar(line, "[return]", 2);
    MarkerChar(line, "[endsub]", 1);
    MarkerChar(line, "[endsub]", 2);
    MarkerChar(line, "[endsub]", 4);
    MarkerChar(line, "[if]", 1);
    MarkerChar(line, "[else]", 1);
    MarkerChar(line, "[else]", 2);
    MarkerChar(line, "[maybe]", 1);
    MarkerChar(line, "[endif]", 1);
    MarkerChar(line, "[endif]", 2);
    MarkerChar(line, "[endif]", 4);
  }

  lemma {:induction false} IfLine(line: string)
    requires StartsWith(line, "[if]")
    ensures Classify(line) == If && MarkOf(line) == IfMark
  {
    hide StartsWith;
    MarkerLetters(line);
  }

  lemma {:induction false} ElseLine(line: string)
    requires StartsWith(line, "[else]")
    ensures Classify(line) == SkipToEndif && MarkOf(line) == ElseMark
  {
    hide StartsWith;
    MarkerLetters(line);
  }

  lemma {:induction false} MaybeLine(line: string)
    requires StartsWith(line, "[maybe]")
    ensures Classify(line) == SkipToEndif && MarkOf(line) == MaybeMark
  {
    hide StartsWith;
    MarkerLetters(line);
  }

  lemma {:induction false} EndifLine(line: string)
    requires StartsWith(line, "[endif]")
    ensures Classify(line) == Endif && MarkOf(line) == EndifMark
  {
    hide StartsWith;
    MarkerLetters(line);
  }

  lemma {:induction false} EndsubLine(line: string)
    requires StartsWith(line, "[endsub]")
    ensures Classify(line) == Return && MarkOf(line) == SubEdge
  {
    hide StartsWith;
    MarkerLetters(line);
  }

  /** A sub header without its closing bracket is a sub edge to the scans and plain text to the machine. */
  lemma {:induction false} SubLine(line: string)
    requires StartsWith(line, "[sub:")
    ensures MarkOf(line) == SubEdge
    ensures Classify(line) == if line[|line| - 1] == ']' then Sub else Plain
  {
    hide StartsWith;
    MarkerLetters(line);
  }

  /** The scans and the machine agree on which lines belong to [IF] blocks and where subs begin and end. */
  lemma {:induction false} MarksAndCommands(line: string)
    ensures MarkOf(line) == IfMark <==> Classify(line) == If
    ensures MarkOf(line) == ElseMark || MarkOf(line) == MaybeMark <==> Classify(line) == SkipToEndif
    ensures MarkOf(line) == EndifMark <==> Classify(line) == Endif
    ensures Classify(line) == Sub ==> MarkOf(line) == SubEdge
    ensures MarkOf(line) == SubEdge ==> Classify(line) == Sub || Classify(line) == Plain || Classify(line) == Return
  {
    hide StartsWith;
    if StartsWith(line, "[if]") { IfLine(line); }
    if StartsWith(line, "[else]") { ElseLine(line); }
    if StartsWith(line, "[maybe]") { MaybeLine(line); }
    if StartsWith(line, "[endif]") { EndifLine(line); }
    if StartsWith(line, "[endsub]") { EndsubLine(line); }
    if StartsWith(line, "[sub:") { SubLine(line); }
  }

  // ---- The scans, as one-pass matchers ----

  /** The [ENDIF] that closes the block `depth` levels out, or the number of lines if a sub edge or the
      end of the script comes first. */
  function EndifFrom(lines: seq<string>, k: nat, depth: nat): nat
    decreases |lines| - k
  {
    if k >= |lines| then |lines|
    else match MarkOf(lines[k])
      case SubEdge => |lines|
      case IfMark => EndifFrom(lines, k + 1, depth + 1)
      case EndifMark => if depth == 0 then k else EndifFrom(lines, k + 1, depth - 1)
      case _ => EndifFrom(lines, k + 1, depth)
  }

  /** The same scan, but stopping also at an [ELSE] or [MAYBE] of the block itself. */
  function MarkerFrom(lines: seq<string>, k: nat, depth: nat): nat
    decreases |lines| - k
  {
    if k >= |lines| then |lines|
    else match MarkOf(lines[k])
      case SubEdge => |lines|
      case IfMark => MarkerFrom(lines, k + 1, depth + 1)
      case EndifMark => if depth == 0 then k else MarkerFrom(lines, k + 1, depth - 1)
      case ElseMark => if depth == 0 then k else MarkerFrom(lines, k + 1, depth)
      case MaybeMark => if depth == 0 then k else MarkerFrom(lines, k + 1, depth)
      case NoMark => MarkerFrom(lines, k + 1, depth)
  }

  /** The line after the block's first `wanted` marker, or its [ENDIF] if it has none. */
  function BranchFrom(lines: seq<string>, k: nat, depth: nat, wanted: Mark): nat
    decreases |lines| - k
  {
    if k >= |lines| then |lines|
    else if MarkOf(lines[k]) == SubEdge then |lines|
    else if MarkOf(lines[k]) == IfMark then BranchFrom(lines, k + 1, depth + 1, wanted)
    else if MarkOf(lines[k]) == EndifMark then
      if depth == 0 then k else BranchFrom(lines, k + 1, depth - 1, wanted)
    else if depth == 0 && MarkOf(lines[k]) == wanted then k + 1
    else BranchFrom(lines, k + 1, depth, wanted)
  }

  function SubHeader(name: string): string {
    "[SUB:" + name + "]"
  }

  function SubFrom(lines: seq<string>, k: nat, name: string): nat
    decreases |lines| - k
  {
    if k >= |lines| then |lines|
    else if lines[k] == SubHeader(name) then k
    else SubFrom(lines, k + 1, name)
  }

  function EndsubFrom(lines: seq<string>, k: nat): nat
    decreases |lines| - k
  {
    if k >= |lines| then |lines|
    else if StartsWith(lines[k], "[endsub]") then k
    else EndsubFrom(lines, k + 1)
  }

  // ---- What the matchers mean ----

  /** How many more [IF]s than [ENDIF]s there are from `from` up to, not including, `k`. */
  function Balance(lines: seq<string>, from: nat, k: nat): int
    requires k <= |lines|
    decreases k
  {
    if k <= from then 0
    else Balance(lines, from, k - 1)
         + (match MarkOf(lines[k - 1]) case IfMark => 1 case EndifMark => -1 case _ => 0)
  }

  /** `k` is the first [ENDIF] from `from` on that exceeds the [IF]s, and no sub edge comes before it. */
  ghost predicate Closes(lines: seq<string>, from: nat, k: nat) {
    && from <= k < |lines| && MarkOf(lines[k]) == EndifMark && Balance(lines, from, k) == 0
    && forall j :: from <= j < k ==> MarkOf(lines[j]) != SubEdge && Balance(lines, from, j) >= 0
  }

  /** The block opened before `from` is still open at `k`. */
  ghost predicate StillOpen(lines: seq<string>, from: nat, k: nat) {
    && from <= k <= |lines| && Balance(lines, from, k) >= 0
    && forall j :: from <= j < k ==> MarkOf(lines[j]) != SubEdge && Balance(lines, from, j) >= 0 && !Closes(lines, from, j)
  }

  lemma {:induction false} OpenOrClosed(lines: seq<string>, from: nat, k: nat)
    requires StillOpen(lines, from, k)
    ensures k == |lines| || MarkOf(lines[k]) == SubEdge ==> !exists j :: Closes(lines, from, j)
    ensures k < |lines| && MarkOf(lines[k]) == EndifMark && Balance(lines, from, k) == 0 ==> Closes(lines, from, k)
  {
    hide MarkOf, Balance;
  }

  lemma {:induction false} OpenNext(lines: seq<string>, from: nat, k: nat)
    requires StillOpen(lines, from, k) && k < |lines| && MarkOf(lines[k]) != SubEdge
    requires MarkOf(lines[k]) != EndifMark || Balance(lines, from, k) != 0
    ensures StillOpen(lines, from, k + 1)
    ensures Balance(lines, from, k + 1)
            == Balance(lines, from, k) + (match MarkOf(lines[k]) case IfMark => 1 case EndifMark => -1 case _ => 0)
  {
    hide MarkOf;
  }

  lemma {:induction false} EndifFromMeans(lines: seq<string>, from: nat, k: nat)
    requires StillOpen(lines, from, k)
    ensures var e := EndifFrom(lines, k, Balance(lines, from, k));
            if e < |lines| then Closes(lines, from, e) else e == |lines| && !exists j :: Closes(lines, from, j)
    decreases |lines| - k
  {
    hide MarkOf, Balance, Closes;
    OpenOrClosed(lines, from, k);
    if k < |lines| && MarkOf(lines[k]) != SubEdge && (MarkOf(lines[k]) != EndifMark || Balance(lines, from, k) != 0) {
      OpenNext(lines, from, k);
      EndifFromMeans(lines, from, k + 1);
    }
  }

  /** The scan finds exactly the closing [ENDIF], and fails exactly when there is none. */
  lemma {:induction false} EndifIsTheClosingOne(lines: seq<string>, from: nat)
    requires from <= |lines|
    ensures var e := EndifFrom(lines, from, 0);
            if e < |lines| then Closes(lines, from, e) else e == |lines| && !exists j :: Closes(lines, from, j)
  {
    EndifFromMeans(lines, from, from);
  }

  /** No script has two closing [ENDIF]s for one place. */
  lemma {:induction false} ClosesOnce(lines: seq<string>, from: nat, a: nat, b: nat)
    requires Closes(lines, from, a) && Closes(lines, from, b)
    ensures a == b
  {
    hide MarkOf;
    assert a < |lines| ==> Balance(lines, from, a + 1) == -1;
    assert b < |lines| ==> Balance(lines, from, b + 1) == -1;
  }

  /** Where the block closes, every branch of it starts later than the [IF] and not after the closing
      [ENDIF], with no sub edge on the way; the line before it is the wanted marker unless it is the
      [ENDIF] itself. */
  /** One line of the scans for the end of a block and for a branch of it. */
  lemma {:induction false} LandingStep(lines: seq<string>, k: nat, depth: nat, wanted: Mark) returns (inner: nat)
    requires (wanted == ElseMark || wanted == MaybeMark) && EndifFrom(lines, k, depth) < |lines|
    ensures k < |lines| && MarkOf(lines[k]) != SubEdge
    ensures if MarkOf(lines[k]) == EndifMark && depth == 0 then
              EndifFrom(lines, k, depth) == BranchFrom(lines, k, depth, wanted) == k
            else
              && EndifFrom(lines, k, depth) == EndifFrom(lines, k + 1, inner)
              && BranchFrom(lines, k, depth, wanted)
                 == if depth == 0 && MarkOf(lines[k]) == wanted then k + 1 else BranchFrom(lines, k + 1, inner, wanted)
  {
    hide MarkOf;
    inner := if MarkOf(lines[k]) == IfMark then depth + 1
             else if MarkOf(lines[k]) == EndifMark && depth > 0 then depth - 1 else depth;
  }

  lemma {:induction false} BranchLandsInBlock(lines: seq<string>, k: nat, depth: nat, wanted: Mark)
    requires wanted == ElseMark || wanted == MaybeMark
    requires EndifFrom(lines, k, depth) < |lines|
    ensures var b, e := BranchFrom(lines, k, depth, wanted), EndifFrom(lines, k, depth);
            && k <= b <= e
            && (forall j :: k <= j <= e ==> MarkOf(lines[j]) != SubEdge)
            && (b < e ==> k < b && MarkOf(lines[b - 1]) == wanted)
            && MarkOf(lines[e]) == EndifMark
    decreases |lines| - k
  {
    hide MarkOf, BranchFrom, EndifFrom;
    var inner := LandingStep(lines, k, depth, wanted);
    if MarkOf(lines[k]) != EndifMark || depth > 0 { BranchLandsInBlock(lines, k + 1, inner, wanted); }
  }

  // ---- The program's loops ----

  method FindNextBranchMarker(lines: seq<string>, from: nat) returns (found: nat)
    ensures found == MarkerFrom(lines, from, 0)
  {
    var depth := 0;
    var k := from;
    while k < |lines|
      invariant depth >= 0 && MarkerFrom(lines, k, depth) == MarkerFrom(lines, from, 0)
      decreases |lines| - k
    {
      var line := lines[k];
      if StartsWith(line, "[endsub]") || StartsWith(line, "[sub:") { return |lines|; }
      if StartsWith(line, "[if]") {
        depth := depth + 1;
      } else if StartsWith(line, "[endif]") {
        if depth == 0 { return k; }
        depth := depth - 1;
      } else if depth == 0 && (StartsWith(line, "[else]") || StartsWith(line, "[maybe]")) {
        return k;
      }
      k := k + 1;
    }
    return |lines|;
  }

  /** A scan that is started again after each [ELSE] or [MAYBE] goes on where one pass would be. */
  lemma {:induction false} RestartGoesOn(lines: seq<string>, k: nat, depth: nat)
    ensures k <= |lines| ==> k <= MarkerFrom(lines, k, depth) <= |lines|
    ensures k > |lines| ==> MarkerFrom(lines, k, depth) == |lines|
    ensures var m := MarkerFrom(lines, k, depth);
            && (m < |lines| ==> MarkOf(lines[m]) in {EndifMark, ElseMark, MaybeMark})
            && EndifFrom(lines, k, depth)
               == if m < |lines| && MarkOf(lines[m]) != EndifMark then EndifFrom(lines, m + 1, 0) else m
    decreases |lines| - k
  {
    hide MarkOf;
    if k < |lines| {
      match MarkOf(lines[k])
      case SubEdge =>
      case IfMark => RestartGoesOn(lines, k + 1, depth + 1);
      case EndifMark => if depth > 0 { RestartGoesOn(lines, k + 1, depth - 1); }
      case _ => RestartGoesOn(lines, k + 1, depth);
    }
  }

  /** A line that is not a mark of the block itself moves both scans on alike. */
  lemma {:induction false} ScanStep(lines: seq<string>, k: nat, depth: nat, wanted: Mark) returns (inner: nat)
    requires k < |lines| && MarkOf(lines[k]) != SubEdge && wanted != NoMark
    requires depth > 0 || MarkOf(lines[k]) == IfMark || MarkOf(lines[k]) == NoMark
    ensures MarkerFrom(lines, k, depth) == MarkerFrom(lines, k + 1, inner)
    ensures BranchFrom(lines, k, depth, wanted) == BranchFrom(lines, k + 1, inner, wanted)
  {
    hide MarkOf;
    inner := if MarkOf(lines[k]) == IfMark then depth + 1
             else if MarkOf(lines[k]) == EndifMark && depth > 0 then depth - 1 else depth;
  }

  lemma {:induction false} BranchGoesOn(lines: seq<string>, k: nat, depth: nat, wanted: Mark)
    requires wanted == ElseMark || wanted == MaybeMark
    ensures var m := MarkerFrom(lines, k, depth);
            BranchFrom(lines, k, depth, wanted)
            == if m >= |lines| || MarkOf(lines[m]) == EndifMark then m
               else if MarkOf(lines[m]) == wanted then m + 1
               else BranchFrom(lines, m + 1, 0, wanted)
    decreases |lines| - k
  {
    hide MarkOf;
    if k < |lines| && MarkOf(lines[k]) != SubEdge
       && (depth > 0 || MarkOf(lines[k]) == IfMark || MarkOf(lines[k]) == NoMark) {
      hide MarkerFrom, BranchFrom;
      var inner := ScanStep(lines, k, depth, wanted);
      BranchGoesOn(lines, k + 1, inner, wanted);
    }
  }

  method FindEndif(lines: seq<string>, from: nat) returns (found: nat)
    ensures found == EndifFrom(lines, from, 0)
  {
    hide MarkOf, StartsWith;
    var k := from;
    while k < |lines|
      invariant EndifFrom(lines, k, 0) == EndifFrom(lines, from, 0)
      decreases |lines| - k
    {
      RestartGoesOn(lines, k, 0);
      k := FindNextBranchMarker(lines, k);
      if k < |lines| { BranchMarker(lines[k]); }
      if k < |lines| && StartsWith(lines[k], "[endif]") { return k; }
      k := k + 1;
    }
    return |lines|;
  }

  lemma {:induction false} BranchMarker(line: string)
    ensures StartsWith(line, "[endif]") <==> MarkOf(line) == EndifMark
    ensures StartsWith(line, "[else]") <==> MarkOf(line) == ElseMark
    ensures StartsWith(line, "[maybe]") <==> MarkOf(line) == MaybeMark
  {
    hide StartsWith;
    if StartsWith(line, "[else]") { ElseLine(line); }
    if StartsWith(line, "[maybe]") { MaybeLine(line); }
    if StartsWith(line, "[endif]") { EndifLine(line); }
  }

  method FindBranchStart(lines: seq<string>, from: nat, wanted: string) returns (found: nat)
    requires wanted == "[else]" || wanted == "[maybe]"
    ensures found == BranchFrom(lines, from, 0, if wanted == "[else]" then ElseMark else MaybeMark)
  {
    hide MarkOf, StartsWith;
    ghost var mark := if wanted == "[else]" then ElseMark else MaybeMark;
    var k := from;
    while k < |lines|
      invariant BranchFrom(lines, k, 0, mark) == BranchFrom(lines, from, 0, mark)
      decreases |lines| - k
    {
      RestartGoesOn(lines, k, 0);
      BranchGoesOn(lines, k, 0, mark);
      k := FindNextBranchMarker(lines, k);
      if k >= |lines| { break; }
      BranchMarker(lines[k]);
      if StartsWith(lines[k], wanted) { return k + 1; }
      if StartsWith(lines[k], "[endif]") { return k; }
      k := k + 1;
    }
    return |lines|;
  }

  method FindSub(lines: seq<string>, name: string) returns (found: nat)
    ensures found == SubFrom(lines, 0, name)
  {
    var wanted := "[SUB:" + name + "]";
    for k := 0 to |lines|
      invariant SubFrom(lines, k, name) == SubFrom(lines, 0, name)
    {
      if lines[k] == wanted { return k; }
    }
    return |lines|;
  }

  method FindEndsub(lines: seq<string>, from: nat) returns (k: nat)
    requires from <= |lines|
    ensures k == EndsubFrom(lines, from)
  {
    k := from;
    while k < |lines| && !(StartsWith(lines[k], "[endsub]"))
      invariant k <= |lines| && EndsubFrom(lines, k) == EndsubFrom(lines, from)
    {
      k := k + 1;
    }
  }
}
