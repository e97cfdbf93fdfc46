/** What a script line does, in terms of how it is written (source/tools_task_script.cpp): when the limit of an
    [ASK] passes and what happens then, and what the other lines do on their tick. */
module ScriptTicks {
  import opened Options
  import opened Sequences
  import opened ScriptLines
  import opened ScriptMachine

  // ---- Lines as they are written ----

  lemma {:induction false} StartsAsWritten(marker: string, rest: string, lower: string)
    requires |lower| == |marker| && forall k :: 0 <= k < |marker| ==> LowerChar(marker[k]) == lower[k]
    ensures StartsWith(marker + rest, lower)
  {
  }

  lemma {:induction false} FindIs(s: string, c: char, from: nat, k: nat)
    requires from <= k <= |s| && (k < |s| ==> s[k] == c) && forall j :: from <= j < k ==> s[j] != c
    ensures Find(s, c, from) == k
    decreases k - from
  {
    if from < k { FindIs(s, c, from + 1, k); }
  }

  ghost predicate Without(s: string, c: char) {
    forall k :: 0 <= k < |s| ==> s[k] != c
  }

  /** "[ASK:seconds,name]text", where the name may be left out with its comma. */
  function TimedAskLine(seconds: string, name: string, text: string): string {
    "[ASK:" + (seconds + (if name == "" then "" else "," + name)) + ("]" + text)
  }

  lemma {:induction false} AskLine(rest: string)
    ensures Classify("[ASK:" + rest) == Ask && !StartsWith("[ASK:" + rest, "[ask]")
    ensures Classify("[ASK]" + rest) == Ask && StartsWith("[ASK]" + rest, "[ask]")
  {
    StartsAsWritten("[ASK:", rest, "[ask:");
    StartsAsWritten("[ASK]", rest, "[ask]");
    MarkerChar("[ASK:" + rest, "[ask]", 4);
    assert ("[ASK:" + rest)[4] == ':';
    hide StartsWith;
    MarkerLetters("[ASK:" + rest);
    MarkerLetters("[ASK]" + rest);
  }

  lemma {:induction false} HeaderIs(seconds: string, name: string, text: string)
    requires Without(seconds, ',') && Without(seconds, ']') && Without(name, ']')
    ensures var line, header := TimedAskLine(seconds, name, text), seconds + (if name == "" then "" else "," + name);
            && |line| >= 5 && Find(line, ']', 5) == 5 + |header| < |line| && line[5..5 + |header|] == header
            && Find(header, ',', 0) == |seconds| && header[..|seconds|] == seconds
            && (if |seconds| < |header| then header[|seconds| + 1..] else "") == name
            && line[5 + |header| + 1..] == text
  {
    var line, header := TimedAskLine(seconds, name, text), seconds + (if name == "" then "" else "," + name);
    assert line == "[ASK:" + (header + ("]" + text)) by { ConcatAssociates("[ASK:", header, "]" + text); }
    assert forall k :: 5 <= k < 5 + |header| ==> line[k] == header[k - 5];
    FindIs(line, ']', 5, 5 + |header|);
    FindIs(header, ',', 0, |seconds|);
  }

  /** Seconds that are no number at all are no limit; otherwise they must be above 0. */
  function HeaderFor(seconds: Number, name: string, textStart: nat): Option<AskHeader> {
    match seconds
    case Unreadable => None
    case NotANumber => Some(AskHeader(None, name, textStart))
    case Value(v) => if v <= 0.0 then None else Some(AskHeader(Some(v), name, textStart))
  }

  lemma {:induction false} TimedAskParses(seconds: string, name: string, text: string, number: string -> Number)
    requires Without(seconds, ',') && Without(seconds, ']') && Without(name, ']')
    ensures var line := TimedAskLine(seconds, name, text);
            && Classify(line) == Ask && |line| >= |text| && line[|line| - |text|..] == text
            && ParseAsk(line, number) == HeaderFor(number(seconds), name, |line| - |text|)
  {
    hide Classify, StartsWith, Find, ParseAsk, HeaderFor, Without;
    var header := seconds + (if name == "" then "" else "," + name);
    HeaderIs(seconds, name, text);
    ConcatAssociates("[ASK:", header, "]" + text);
    AskLine(header + ("]" + text));
    ParsesAs(TimedAskLine(seconds, name, text), header, seconds, name, number);
  }

  lemma {:induction false} ParsesAs(line: string, header: string, seconds: string, name: string, number: string -> Number)
    requires !StartsWith(line, "[ask]") && |line| >= 5 && Find(line, ']', 5) == 5 + |header| < |line|
    requires line[5..5 + |header|] == header && Find(header, ',', 0) == |seconds| <= |header|
    requires header[..|seconds|] == seconds && (if |seconds| < |header| then header[|seconds| + 1..] else "") == name
    ensures ParseAsk(line, number) == HeaderFor(number(seconds), name, 5 + |header| + 1)
  {
    hide StartsWith, Find;
  }

  // ---- When a limit passes ----

  /** The machine once it waits at a line for what the user types. */
  function Waiting(m: Machine, text: string, deadline: Option<real>): Machine {
    m.(state := WaitAsk, savedKeyboard := m.keyboard, keyboard := true, shown := m.shown + [Request(text)],
       deadline := deadline)
  }

  /** Nobody presses Enter or asks to leave, and it is never this late. */
  ghost predicate Idle(ticks: seq<Tick>, end: real) {
    forall k :: 0 <= k < |ticks| ==> !ticks[k].enterPressed && !ticks[k].exitRequested && ticks[k].now < end
  }

  lemma {:induction false} AskBegins(lines: seq<string>, number: string -> Number, m: Machine, seconds: string,
      name: string, text: string, v: real, first: Tick)
    requires Inv(lines, number, m) && m.state == GetCommand && m.i < |lines| && !first.exitRequested
    requires Without(seconds, ',') && Without(seconds, ']') && Without(name, ']')
    requires lines[m.i] == TimedAskLine(seconds, name, text) && number(seconds) == Value(v) && v > 0.0
    ensures Step(lines, number, m, first) == Waiting(m, text, Some(first.now + v))
  {
    hide Classify, ParseAsk, TimedAskLine, Without, Control;
    TimedAskParses(seconds, name, text, number);
    NoDeadline(lines, number, m);
    TakesUp(lines, number, m, first);
  }

  lemma {:induction false} TakesUp(lines: seq<string>, number: string -> Number, m: Machine, first: Tick)
    requires m.state == GetCommand && m.i < |lines| && !first.exitRequested && Classify(lines[m.i]) == Ask
    ensures Step(lines, number, m, first) == AskCommand(m, lines[m.i], first.now, number)
  {
    hide Classify, ParseAsk;
  }

  lemma {:induction false} TickIsIdle(lines: seq<string>, number: string -> Number, m: Machine, t: Tick)
    requires Inv(lines, number, m) && m.state == WaitAsk && !t.enterPressed && !t.exitRequested
    requires m.deadline.Some? ==> t.now < m.deadline.value
    ensures Step(lines, number, m, t) == m
  {
    hide LedTo, TimedAsk, EndifFrom;
  }

  lemma {:induction false} IdleRun(lines: seq<string>, number: string -> Number, m: Machine, ticks: seq<Tick>)
    requires Inv(lines, number, m) && m.state == WaitAsk
    requires forall k :: 0 <= k < |ticks| ==>
               !ticks[k].enterPressed && !ticks[k].exitRequested && (m.deadline.Some? ==> ticks[k].now < m.deadline.value)
    ensures RunFrom(lines, number, m, ticks) == m
    decreases |ticks|
  {
    if ticks != [] {
      StepKeepsInv(lines, number, m, ticks[0]);
      TickIsIdle(lines, number, m, ticks[0]);
      hide Step, Inv;
      IdleRun(lines, number, m, ticks[1..]);
    }
  }

  /** From the tick that takes up an [ASK] line with a limit, the script waits unchanged for exactly so many
      seconds, however many ticks there are, unless Enter is pressed or someone asks to leave. */
  lemma {:induction false} LimitIsKept(lines: seq<string>, number: string -> Number, m: Machine, seconds: string,
      name: string, text: string, v: real, first: Tick, ticks: seq<Tick>)
    requires Inv(lines, number, m) && m.state == GetCommand && m.i < |lines| && !first.exitRequested
    requires Without(seconds, ',') && Without(seconds, ']') && Without(name, ']')
    requires lines[m.i] == TimedAskLine(seconds, name, text) && number(seconds) == Value(v) && v > 0.0
    requires Idle(ticks, first.now + v)
    ensures Inv(lines, number, Step(lines, number, m, first))
    ensures RunFrom(lines, number, Step(lines, number, m, first), ticks) == Waiting(m, text, Some(first.now + v))
  {
    StepKeepsInv(lines, number, m, first);
    AskBegins(lines, number, m, seconds, name, text, v, first);
    hide Step, Inv;
    IdleRun(lines, number, Waiting(m, text, Some(first.now + v)), ticks);
  }

  /** Line `sub` is the first one that opens this sub. */
  ghost predicate Opens(lines: seq<string>, name: string, sub: nat) {
    sub < |lines| && lines[sub] == "[SUB:" + name + "]" && forall k :: 0 <= k < sub ==> lines[k] != "[SUB:" + name + "]"
  }

  ghost predicate NoSub(lines: seq<string>, name: string) {
    forall k :: 0 <= k < |lines| ==> lines[k] != "[SUB:" + name + "]"
  }

  lemma {:induction false} SubFromIs(lines: seq<string>, k: nat, name: string)
    requires k <= |lines| && forall j :: 0 <= j < k ==> lines[j] != "[SUB:" + name + "]"
    ensures var sub := SubFrom(lines, k, name); if sub < |lines| then Opens(lines, name, sub) else NoSub(lines, name)
    decreases |lines| - k
  {
    if k < |lines| && lines[k] != "[SUB:" + name + "]" { SubFromIs(lines, k + 1, name); }
  }

  /** What becomes of a wait at line i whose limit passes. */
  ghost predicate LimitEnds(lines: seq<string>, m: Machine, name: string, next: Machine) {
    var endif := if IfFollows(lines, m.i) then EndifFrom(lines, m.i + 2, 0) else m.i;
    && next.deadline == None && next.keyboard == m.savedKeyboard
    && if name == "" then next.state == Done && next.shown == m.shown
       else if endif >= |lines| then next.state == Done && next.shown == m.shown + [ScriptError(NoEndif)]
       else if NoSub(lines, name) then next.state == Done && next.shown == m.shown + [ScriptError(NoSuchSub(name))]
       else if |m.stack| >= 16 then next.state == Done && next.shown == m.shown + [ScriptError(TooDeep)]
       else
         && next.state == GetCommand && next.shown == m.shown && next.stack == m.stack + [endif + 1]
         && next.i > 0 && Opens(lines, name, next.i - 1)
  }

  lemma {:induction false} LateAskEnds(lines: seq<string>, number: string -> Number, m: Machine, name: string, last: Tick)
    requires Inv(lines, number, m) && m.state == WaitAsk && m.i < |lines| && m.deadline.Some?
    requires ParseAsk(lines[m.i], number).Some? && ParseAsk(lines[m.i], number).value.name == name
    requires !last.enterPressed && !last.exitRequested && last.now >= m.deadline.value
    ensures LimitEnds(lines, m, name, Step(lines, number, m, last))
  {
    hide Control, ParseAsk, CallAfterAsk, AskAnswered, LimitEnds;
    var m0 := m.(deadline := None, keyboard := m.savedKeyboard);
    if name == "" {
      EndIsLimitEnd(lines, m);
    } else {
      CallIsLimitEnd(lines, m, m0, name);
      CallAfterAskRestores(lines, m0, name);
    }
  }

  lemma {:induction false} EndIsLimitEnd(lines: seq<string>, m: Machine)
    ensures LimitEnds(lines, m, "", m.(deadline := None, keyboard := m.savedKeyboard, state := Done))
  {
    hide EndifFrom, StartsWith, NoSub, Opens;
  }

  lemma {:induction false} CallIsLimitEnd(lines: seq<string>, m: Machine, m0: Machine, name: string)
    requires m0 == m.(deadline := None, keyboard := m.savedKeyboard) && m.i < |lines| && name != "" && m.state == WaitAsk
    ensures LimitEnds(lines, m, name, CallAfterAsk(lines, m0, name))
  {
    hide EndifFrom, StartsWith, SubFrom, NoSub, Opens;
    SubFromIs(lines, 0, name);
    NoSubOpens(lines, name);
  }

  lemma {:induction false} NoSubOpens(lines: seq<string>, name: string)
    ensures forall sub: nat :: Opens(lines, name, sub) ==> !NoSub(lines, name)
  {
  }

  /** The first tick that is so many seconds late or more, without Enter, ends the wait: in the sub of that name, to
      go on behind the line and the question about the answer if there is one, or in the script's end if the line
      has no name. */
  lemma {:induction false} LimitEndsTheWait(lines: seq<string>, number: string -> Number, m: Machine, seconds: string,
      name: string, text: string, v: real, first: Tick, ticks: seq<Tick>, last: Tick)
    requires Inv(lines, number, m) && m.state == GetCommand && m.i < |lines| && !first.exitRequested
    requires Without(seconds, ',') && Without(seconds, ']') && Without(name, ']')
    requires lines[m.i] == TimedAskLine(seconds, name, text) && number(seconds) == Value(v) && v > 0.0
    requires Idle(ticks, first.now + v)
    requires !last.enterPressed && !last.exitRequested && last.now >= first.now + v
    ensures Inv(lines, number, Step(lines, number, m, first))
    ensures var waiting := RunFrom(lines, number, Step(lines, number, m, first), ticks);
            LimitEnds(lines, waiting, name, Step(lines, number, waiting, last))
  {
    LimitIsKept(lines, number, m, seconds, name, text, v, first, ticks);
    TimedAskParses(seconds, name, text, number);
    var waiting := RunFrom(lines, number, Step(lines, number, m, first), ticks);
    hide Step, Inv, Classify, ParseAsk, LimitEnds;
    LateAskEnds(lines, number, waiting, name, last);
  }

  /** An [ASK] line without seconds waits for as long as it takes. */
  lemma {:induction false} NoLimitIsKept(lines: seq<string>, number: string -> Number, m: Machine, text: string,
      first: Tick, ticks: seq<Tick>)
    requires Inv(lines, number, m) && m.state == GetCommand && m.i < |lines| && !first.exitRequested
    requires lines[m.i] == "[ASK]" + text
    requires forall k :: 0 <= k < |ticks| ==> !ticks[k].enterPressed && !ticks[k].exitRequested
    ensures Inv(lines, number, Step(lines, number, m, first))
    ensures RunFrom(lines, number, Step(lines, number, m, first), ticks) == Waiting(m, text, None)
  {
    StepKeepsInv(lines, number, m, first);
    AskLine(text);
    assert ("[ASK]" + text)[5..] == text;
    hide Classify, StartsWith, LedTo, EndifFrom;
    assert Step(lines, number, m, first) == Waiting(m, text, None);
    hide Step, Inv;
    IdleRun(lines, number, Waiting(m, text, None), ticks);
  }

  /** Enter ends the wait with what was typed, before the limit and after it: it goes to the model as it is, or, if a
      question follows, quoted in front of that. */
  lemma {:induction false} EnterAnswers(lines: seq<string>, number: string -> Number, m: Machine, t: Tick)
    requires Inv(lines, number, m) && m.state == WaitAsk && t.enterPressed && !t.exitRequested
    ensures var next := Step(lines, number, m, t);
            && m.i < |lines| && next.deadline == None && next.keyboard == m.savedKeyboard && next.stack == m.stack
            && (if !IfFollows(lines, m.i) then next.state == ExecuteCommand && next.input == t.typed && next.i == m.i
                else if EndifFrom(lines, m.i + 2, 0) >= |lines| then next.state == Done && next.i == m.i + 1
                else
                  && next.state == ExecuteIf && next.i == m.i + 1
                  && exists typed :: Trimmed(t.typed, typed)
                                     && next.input == "The player's answer: \"" + typed + "\"\n" + After(lines[m.i + 1], 4))
  {
    hide Control, EndifFrom, IfFollows, After, AskAnswered, Trimmed, ParseAsk, CallAfterAsk, TrimNewlines;
    InvBounds(lines, number, m);
    TrimIsTrimmed(t.typed);
    AnswerIs(lines, m, t);
  }

  lemma {:induction false} AnswerIs(lines: seq<string>, m: Machine, t: Tick)
    requires m.state == WaitAsk && m.i < |lines| && t.enterPressed
    ensures IfFollows(lines, m.i) ==> m.i + 1 < |lines|
    ensures var next := AskAnswered(lines, m, t);
            && next.keyboard == m.savedKeyboard && next.stack == m.stack && next.state != WaitAsk
            && if !IfFollows(lines, m.i) then next.state == ExecuteCommand && next.input == t.typed && next.i == m.i
               else if EndifFrom(lines, m.i + 2, 0) >= |lines| then next.state == Done && next.i == m.i + 1
               else
                 && next.state == ExecuteIf && next.i == m.i + 1
                 && next.input == "The player's answer: \"" + TrimNewlines(t.typed) + "\"\n" + After(lines[m.i + 1], 4)
  {
    hide EndifFrom, StartsWith, After, TrimNewlines;
  }

  /** The text without the newlines at its end. */
  ghost predicate Trimmed(text: string, start: string) {
    && start <= text
    && (forall k :: |start| <= k < |text| ==> text[k] == '\n' || text[k] == '\r')
    && (start != "" ==> start[|start| - 1] != '\n' && start[|start| - 1] != '\r')
  }

  lemma {:induction false} TrimIsTrimmed(s: string)
    ensures Trimmed(s, TrimNewlines(s))
  {
    if s != "" && (s[|s| - 1] == '\n' || s[|s| - 1] == '\r') { TrimIsTrimmed(s[..|s| - 1]); }
  }

  // ---- What the other lines do ----

  /** A marker with a text behind it up to a bracket that ends the line. */
  lemma {:induction false} BracketedAsWritten(marker: string, lower: string, text: string)
    requires |lower| == |marker| && forall k :: 0 <= k < |marker| ==> LowerChar(marker[k]) == lower[k]
    ensures var line := marker + (text + "]"); Bracketed(line, lower) && Inside(line, |marker|) == text
  {
    StartsAsWritten(marker, text + "]", lower);
  }

  /** The lines that carry something between brackets. */
  lemma {:induction false} BracketedLines(text: string)
    ensures Classify("[GOSUB:" + (text + "]")) == Gosub(text)
    ensures Classify("[KEYBOARD_INPUT:" + (text + "]")) == KeyboardInput(text == "on")
    ensures Classify("[TTS_OUTPUT:" + (text + "]")) == TtsOutput(text == "on")
    ensures Classify("[ECHO_INPUT:" + (text + "]")) == EchoInput(text == "on")
  {
    GosubLine(text);
    KeyboardLine(text);
    TtsLine(text);
    EchoLine(text);
  }

  lemma {:induction false} GosubLine(text: string)
    ensures Classify("[GOSUB:" + (text + "]")) == Gosub(text)
  {
    hide StartsWith;
    BracketedAsWritten("[GOSUB:", "[gosub:", text);
    MarkerLetters("[GOSUB:" + (text + "]"));
  }

  lemma {:induction false} KeyboardLine(text: string)
    ensures Classify("[KEYBOARD_INPUT:" + (text + "]")) == KeyboardInput(text == "on")
  {
    hide StartsWith;
    BracketedAsWritten("[KEYBOARD_INPUT:", "[keyboard_input:", text);
    MarkerLetters("[KEYBOARD_INPUT:" + (text + "]"));
  }

  lemma {:induction false} TtsLine(text: string)
    ensures Classify("[TTS_OUTPUT:" + (text + "]")) == TtsOutput(text == "on")
  {
    hide StartsWith;
    BracketedAsWritten("[TTS_OUTPUT:", "[tts_output:", text);
    MarkerLetters("[TTS_OUTPUT:" + (text + "]"));
  }

  lemma {:induction false} EchoLine(text: string)
    ensures Classify("[ECHO_INPUT:" + (text + "]")) == EchoInput(text == "on")
  {
    hide StartsWith;
    BracketedAsWritten("[ECHO_INPUT:", "[echo_input:", text);
    MarkerLetters("[ECHO_INPUT:" + (text + "]"));
  }

  lemma {:induction false} PrintLine(text: string)
    ensures Classify("[PRINT]" + text) == Print && After("[PRINT]" + text, 7) == text
  {
    StartsAsWritten("[PRINT]", text, "[print]");
    hide StartsWith;
    MarkerLetters("[PRINT]" + text);
    assert CharIs("[PRINT]" + text, 2, 'r');
    PauseIsNotPrint("[PRINT]" + text);
  }

  lemma {:induction false} PauseIsNotPrint(line: string)
    requires CharIs(line, 2, 'r')
    ensures !StartsWith(line, "[pause]")
  {
    MarkerChar(line, "[pause]", 2);
  }

  /** What a line that waits for nothing does to the script on its tick, by what is written on it. */
  lemma {:induction false} WhatLinesDo(lines: seq<string>, number: string -> Number, m: Machine, t: Tick, text: string)
    requires m.state == GetCommand && m.i < |lines| && !t.exitRequested
    ensures var line, next, on := lines[m.i], Step(lines, number, m, t), m.(i := m.i + 1);
            && (line == "[PRINT]" + text ==> next == on.(shown := m.shown + [Printed(text)]))
            && (line == "[KEYBOARD_INPUT:" + (text + "]") ==> next == on.(keyboard := text == "on"))
            && (line == "[TTS_OUTPUT:" + (text + "]") ==> next == on.(tts := text == "on"))
            && (line == "[ECHO_INPUT:" + (text + "]") ==> next == on.(echo := text == "on"))
            && (line == "[GOSUB:" + (text + "]") ==>
                  if NoSub(lines, text) then next == m.(state := Done, shown := m.shown + [ScriptError(NoSuchSub(text))])
                  else if |m.stack| >= 16 then next == m.(state := Done, shown := m.shown + [ScriptError(TooDeep)])
                  else next.i > 0 && Opens(lines, text, next.i - 1) && next == m.(i := next.i, stack := m.stack + [m.i + 1]))
  {
    hide Classify, Step, Opens, NoSub, After;
    BracketedLines(text);
    PrintLine(text);
    TickDispatches(lines, number, m, t);
    var c := Classify(lines[m.i]);
    if IsInstant(c) { InstantDoes(m, lines[m.i], c); }
    if c.Gosub? { CallDoes(lines, m, c.name); }
  }

  lemma {:induction false} TickDispatches(lines: seq<string>, number: string -> Number, m: Machine, t: Tick)
    requires m.state == GetCommand && m.i < |lines| && !t.exitRequested
    ensures var c, next := Classify(lines[m.i]), Step(lines, number, m, t);
            && (IsInstant(c) ==> next == InstantStep(m, lines[m.i], c))
            && (c.Gosub? ==> next == Call(m, lines, c.name, m.i + 1))
  {
    hide Classify, Call, InstantStep, WaitingStep;
  }

  lemma {:induction false} InstantDoes(m: Machine, line: string, c: Command)
    requires IsInstant(c)
    ensures var next, on := InstantStep(m, line, c), m.(i := m.i + 1);
            && (c.Print? ==> next == on.(shown := m.shown + [Printed(After(line, 7))]))
            && (c.KeyboardInput? ==> next == on.(keyboard := c.on))
            && (c.TtsOutput? ==> next == on.(tts := c.on))
            && (c.EchoInput? ==> next == on.(echo := c.on))
  {
    hide After;
  }

  lemma {:induction false} CallDoes(lines: seq<string>, m: Machine, name: string)
    ensures var next := Call(m, lines, name, m.i + 1);
            if NoSub(lines, name) then next == m.(state := Done, shown := m.shown + [ScriptError(NoSuchSub(name))])
            else if |m.stack| >= 16 then next == m.(state := Done, shown := m.shown + [ScriptError(TooDeep)])
            else next.i > 0 && Opens(lines, name, next.i - 1) && next == m.(i := next.i, stack := m.stack + [m.i + 1])
  {
    hide SubFrom, Opens, NoSub;
    SubFromIs(lines, 0, name);
    NoSubOpens(lines, name);
  }

  // ---- Lines that stop, return or wait ----

  lemma {:induction false} EndLine(rest: string)
    ensures Classify("[END]" + rest) == End
  {
    hide Inside;
    StartsAsWritten("[END]", rest, "[end]");
    assert CharIs("[END]" + rest, 1, 'e') && CharIs("[END]" + rest, 2, 'n');
    hide StartsWith;
    MarkerLetters("[END]" + rest);
  }

  lemma {:induction false} ReturnLine(rest: string)
    ensures Classify("[RETURN]" + rest) == Return
  {
    hide Inside;
    StartsAsWritten("[RETURN]", rest, "[return]");
    assert CharIs("[RETURN]" + rest, 1, 'r') && CharIs("[RETURN]" + rest, 2, 'e');
    hide StartsWith;
    MarkerLetters("[RETURN]" + rest);
  }

  lemma {:induction false} PauseLine(rest: string)
    ensures Classify("[PAUSE]" + rest) == Pause
  {
    StartsAsWritten("[PAUSE]", rest, "[pause]");
    hide StartsWith;
  }

  lemma {:induction false} ResultLine(rest: string)
    ensures Classify("[WAIT_FOR_RESULT]" + rest) == WaitForResult
  {
    hide Inside;
    StartsAsWritten("[WAIT_FOR_RESULT]", rest, "[wait_for_result]");
    assert CharIs("[WAIT_FOR_RESULT]" + rest, 1, 'w');
    hide StartsWith;
    MarkerLetters("[WAIT_FOR_RESULT]" + rest);
  }

  lemma {:induction false} RunLine(name: string)
    ensures Classify("[RUN:" + (name + "]")) == Run
  {
    hide StartsWith, Inside;
    BracketedAsWritten("[RUN:", "[run:", name);
    MarkerLetters("[RUN:" + (name + "]"));
  }

  /** Lines that end the script, return from a sub, or wait for the user, a result or another task, by what is
      written on them. */
  lemma {:induction false} WhatStopsAndWaits(lines: seq<string>, number: string -> Number, m: Machine, t: Tick, text: string)
    requires m.state == GetCommand && m.i < |lines| && !t.exitRequested
    ensures var line, next, last := lines[m.i], Step(lines, number, m, t), |m.stack| - 1;
            && (line == "[END]" + text ==> next == m.(state := Done))
            && (line == "[RETURN]" + text ==>
                  if last < 0 then next == m.(state := Done, shown := m.shown + [ScriptError(NothingToReturn)])
                  else next == m.(i := m.stack[last], stack := m.stack[..last]))
            && (line == "[PAUSE]" + text ==>
                  next == m.(state := WaitEnter, savedKeyboard := m.keyboard, keyboard := true, shown := m.shown + [PressEnter]))
            && (line == "[WAIT_FOR_RESULT]" + text ==> next == m.(state := WaitToolResult))
            && (line == "[RUN:" + (text + "]") ==>
                  next == if text == "" then m.(state := Done, shown := m.shown + [ScriptError(EmptyRun)]) else m.(state := RunTask))
  {
    hide Classify, Step;
    EndLine(text);
    ReturnLine(text);
    PauseLine(text);
    ResultLine(text);
    RunLine(text);
    StopDispatches(lines, number, m, t);
  }

  lemma {:induction false} StopDispatches(lines: seq<string>, number: string -> Number, m: Machine, t: Tick)
    requires m.state == GetCommand && m.i < |lines| && !t.exitRequested
    ensures var c, line, next := Classify(lines[m.i]), lines[m.i], Step(lines, number, m, t);
            && (c == End ==> next == m.(state := Done))
            && (c == Return ==> next == ReturnCommand(m))
            && (c == Pause ==> next == Enter(m, WaitEnter, PressEnter))
            && (c == WaitForResult ==> next == m.(state := WaitToolResult))
            && (c == Run ==> next == if |line| <= 6 then Stop(m, EmptyRun) else m.(state := RunTask))
  {
    hide Classify, ReturnCommand, Enter, Stop;
  }

  // ---- What is sent to the model ----

  lemma {:induction false} FileInLine(name: string)
    ensures var line := "[FILE_IN:" + (name + "]"); Classify(line) == FileIn && Between(line, 9) == name
  {
    hide StartsWith;
    BracketedAsWritten("[FILE_IN:", "[file_in:", name);
    MarkerLetters("[FILE_IN:" + (name + "]"));
    NotThatLong("[FILE_IN:" + (name + "]"));
  }

  /** The fifth letter tells the two file commands apart. */
  lemma {:induction false} NotThatLong(line: string)
    requires CharIs(line, 6, 'i')
    ensures !StartsWith(line, "[file_append:")
  {
    MarkerChar(line, "[file_append:", 6);
  }

  lemma {:induction false} IfQuestion(question: string)
    ensures Classify("[IF]" + question) == If && After("[IF]" + question, 4) == question
  {
    StartsAsWritten("[IF]", question, "[if]");
    IfLine("[IF]" + question);
    hide StartsWith;
  }

  /** A line that begins with no bracket is for the model. */
  lemma {:induction false} PlainLine(line: string)
    requires line != "" ==> line[0] != '['
    ensures Classify(line) == Plain
  {
    hide StartsWith;
    NotMarked(line, "[pause]");
    NotMarked(line, "[ask]");
    NotMarked(line, "[ask:");
    NotMarked(line, "[run:");
    NotMarked(line, "[wait_for_result]");
    NotMarked(line, "[print]");
    NotMarked(line, "[file_in:");
    NotMarked(line, "[file_append:");
    NotMarked(line, "[keyboard_input:");
    NotMarked(line, "[tts_output:");
    NotMarked(line, "[echo_input:");
    NotMarked(line, "[end]");
    NotMarked(line, "[gosub:");
    NotMarked(line, "[sub:");
    NotMarked(line, "[return]");
    NotMarked(line, "[endsub]");
    NotMarked(line, "[if]");
    NotMarked(line, "[else]");
    NotMarked(line, "[maybe]");
    NotMarked(line, "[endif]");
  }

  lemma {:induction false} NotMarked(line: string, marker: string)
    requires (line != "" ==> line[0] != '[') && marker != "" && marker[0] == '['
    ensures !StartsWith(line, marker)
  {
  }

  /** What is sent for a line that is for the model, and when: a plain line as it is, the content of a file that is
      there, and the question of an [IF] that has its [ENDIF]. */
  lemma {:induction false} WhatIsSent(lines: seq<string>, number: string -> Number, m: Machine, t: Tick, text: string)
    requires m.state == GetCommand && m.i < |lines| && !t.exitRequested
    ensures var line, next := lines[m.i], Step(lines, number, m, t);
            && (line == text && (text == "" || text[0] != '[') ==> next == m.(state := ExecuteCommand, input := text))
            && (line == "[FILE_IN:" + (text + "]") ==>
                  match t.file
                  case Some(content) => next == m.(state := ExecuteCommand, input := content)
                  case None =>
                    next == m.(state := WaitAsk, savedKeyboard := m.keyboard, keyboard := true,
                               shown := m.shown + [PasteFile(text)]))
            && (line == "[IF]" + text ==>
                  if EndifFrom(lines, m.i + 1, 0) >= |lines| then next == m.(state := Done, shown := m.shown + [ScriptError(NoEndif)])
                  else next == m.(state := ExecuteIf, input := text))
  {
    hide Classify, Step, After, Between, EndifFrom;
    if text == "" || text[0] != '[' { PlainLine(text); }
    FileInLine(text);
    IfQuestion(text);
    WaitDispatches(lines, number, m, t);
  }

  lemma {:induction false} WaitDispatches(lines: seq<string>, number: string -> Number, m: Machine, t: Tick)
    requires m.state == GetCommand && m.i < |lines| && !t.exitRequested
    ensures var c, line, next := Classify(lines[m.i]), lines[m.i], Step(lines, number, m, t);
            && (c == Plain ==> next == m.(state := ExecuteCommand, input := line))
            && (c == FileIn ==> next == FileInCommand(m, line, t.file))
            && (c == If ==> next == IfCommand(m, lines, line))
  {
    hide Classify, FileInCommand, IfCommand;
  }

  /** What was made ready is sent as it is, shown if the script echoes, and waited for until the reply is there; then
      the script goes on with the next line. */
  lemma {:induction false} SentAndAwaited(lines: seq<string>, number: string -> Number, m: Machine, t: Tick)
    requires !t.exitRequested && (m.state == ExecuteCommand || m.state == WaitResponse)
    ensures var next := Step(lines, number, m, t);
            if m.state == ExecuteCommand then
              next == m.(state := WaitResponse, shown := m.shown + if m.echo then [Echoed(m.input)] else [])
            else if t.responseFinished then next == m.(state := GetCommand, i := m.i + 1)
            else next == m
  {
    hide WaitAskStep, GetCommandStep;
  }

  /** A pause ends with Enter, a wait for a result when that is over, another task when it has finished, each on the
      next line; a task that cannot be run stops the script. */
  lemma {:induction false} OtherWaits(lines: seq<string>, number: string -> Number, m: Machine, t: Tick)
    requires !t.exitRequested && (m.state == WaitEnter || m.state == WaitToolResult || m.state == RunTask)
    ensures var next, on := Step(lines, number, m, t), m.(state := GetCommand, i := m.i + 1);
            if m.state == WaitEnter then next == if t.enterPressed then on.(keyboard := m.savedKeyboard) else m
            else if m.state == WaitToolResult then next == if t.toolWaitOver then on else m
            else if t.run == Finished then next == on
            else next == m.(state := Done, shown := m.shown + [ScriptError(if t.run == NotKnown then UnknownTask else RunTooDeep)])
  {
    hide WaitAskStep, GetCommandStep;
  }
}
