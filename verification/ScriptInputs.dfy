/** What a script sends to the model: the text of its lines, whatever happens in between
    (source/tools_task_script.cpp). */
module ScriptInputs {
  import opened Options
  import opened ScriptLines
  import opened ScriptMachine

  /** The question of an [IF], or the answer typed at the wait in front of it and then the question. */
  ghost predicate Asks(lines: seq<string>, i: nat, input: string)
    requires i < |lines|
  {
    var question := After(lines[i], 4);
    || input == question
    || (i > 0 && TakesAnswer(Classify(lines[i - 1])) && exists typed :: input == QuotedAnswer(typed) + question)
  }

  predicate TakesAnswer(c: Command) { c == Ask || c == FileIn }

  /** What is about to be sent, or was, for the line the machine stands on. */
  ghost predicate SendsFor(lines: seq<string>, i: nat, s: State, input: string)
    requires i < |lines|
  {
    && ((s == ExecuteCommand || s == WaitResponse) && Classify(lines[i]) == Plain ==> input == lines[i])
    && (s == ExecuteIf || s == WaitIfResponse ==> Asks(lines, i, input))
  }

  ghost predicate Sends(lines: seq<string>, m: Machine) {
    m.state != GetCommand && m.state != Done && m.i < |lines| ==> SendsFor(lines, m.i, m.state, m.input)
  }

  lemma {:induction false} JumpSends(lines: seq<string>, m: Machine, c: Command)
    requires m.state == GetCommand && IsJump(c)
    ensures Sends(lines, JumpStep(lines, m, c))
  {
    hide SendsFor, SubFrom, EndsubFrom, EndifFrom;
  }

  lemma {:induction false} IfSends(lines: seq<string>, m: Machine, line: string)
    requires m.i < |lines| && line == lines[m.i] && m.state != ExecuteIf
    ensures var next := IfCommand(m, lines, line);
            next.state == ExecuteIf ==> next.i == m.i && next.input == After(line, 4) && Sends(lines, next)
  {
    hide EndifFrom, Classify, After, QuotedAnswer;
  }

  lemma {:induction false} OthersSend(lines: seq<string>, number: string -> Number, m: Machine, c: Command, t: Tick)
    requires m.state == GetCommand && m.i < |lines| && c == Classify(lines[m.i])
    requires !IsJump(c) && !IsInstant(c) && c != If
    ensures Sends(lines, WaitingStep(lines, number, m, lines[m.i], c, t))
  {
    hide Classify, ParseAsk, After, Between, Asks;
    match c
    case Pause =>
    case Ask =>
    case Run =>
    case WaitForResult =>
    case FileIn =>
    case Plain =>
  }

  lemma {:induction false} WaitingSends(lines: seq<string>, number: string -> Number, m: Machine, t: Tick)
    requires m.state == GetCommand && m.i < |lines|
    requires !IsJump(Classify(lines[m.i])) && !IsInstant(Classify(lines[m.i]))
    ensures Sends(lines, WaitingStep(lines, number, m, lines[m.i], Classify(lines[m.i]), t))
  {
    if Classify(lines[m.i]) == If {
      hide Classify, EndifFrom, After, SendsFor;
      IfSends(lines, m, lines[m.i]);
    } else {
      OthersSend(lines, number, m, Classify(lines[m.i]), t);
    }
  }

  lemma {:induction false} GetCommandSends(lines: seq<string>, number: string -> Number, m: Machine, t: Tick)
    requires m.state == GetCommand
    ensures Sends(lines, GetCommandStep(lines, number, m, t))
  {
    hide Classify, JumpStep, WaitingStep, After, SendsFor;
    if m.i < |lines| {
      if IsJump(Classify(lines[m.i])) {
        JumpSends(lines, m, Classify(lines[m.i]));
      } else if !IsInstant(Classify(lines[m.i])) {
        WaitingSends(lines, number, m, t);
      }
    }
  }

  lemma {:induction false} AnswerForIfSends(lines: seq<string>, m: Machine, typed: string)
    requires m.state == WaitAsk && IfFollows(lines, m.i) && TakesAnswer(Classify(lines[m.i]))
    ensures Sends(lines, AnswerForIf(lines, m, typed)) && Sends(lines, AnswerForIf(lines, m, typed).(deadline := None))
    ensures AnswerForIf(lines, m, typed).state == ExecuteIf || AnswerForIf(lines, m, typed).state == Done
  {
    hide Classify, EndifFrom, QuotedAnswer, After, StartsWith;
  }

  lemma {:induction false} AskSends(lines: seq<string>, number: string -> Number, m: Machine, t: Tick)
    requires Inv(lines, number, m) && m.state == WaitAsk && Sends(lines, m)
    ensures Sends(lines, WaitAskStep(lines, number, m, t))
  {
    hide Control, Classify, AskTimedOut, AskAnswered, SendsFor;
    WaitingLine(lines, number, m);
    TimedOutRestores(lines, number, m, t);
    var m1 := AskTimedOut(lines, number, m, t);
    if m1.state == WaitAsk { AnsweredSends(lines, m1, t); }
  }

  lemma {:induction false} AnsweredSends(lines: seq<string>, m: Machine, t: Tick)
    requires m.state == WaitAsk && m.i < |lines| && Sends(lines, m) && TakesAnswer(Classify(lines[m.i]))
    ensures var next := AskAnswered(lines, m, t); Sends(lines, if next.state != WaitAsk then next.(deadline := None) else next)
  {
    hide Classify, IfFollows, AnswerForIf, Asks;
    if t.enterPressed && IfFollows(lines, m.i) { AnswerForIfSends(lines, m.(keyboard := m.savedKeyboard), t.typed); }
  }

  lemma {:induction false} WaitingLine(lines: seq<string>, number: string -> Number, m: Machine)
    requires Inv(lines, number, m) && m.state == WaitAsk
    ensures m.i < |lines| && TakesAnswer(Classify(lines[m.i]))
  {
    hide Classify, ParseAsk;
  }

  lemma {:induction false} StepSends(lines: seq<string>, number: string -> Number, m: Machine, t: Tick)
    requires Inv(lines, number, m) && Sends(lines, m)
    ensures Sends(lines, Step(lines, number, m, t))
  {
    hide Control, Classify, GetCommandStep, WaitAskStep, BranchFrom, Asks;
    match m.state
    case GetCommand => GetCommandSends(lines, number, m, t);
    case WaitAsk => AskSends(lines, number, m, t);
    case _ =>
  }

  /** In every run, a plain line is sent to the model as it stands, and the question of an [IF] alone or behind
      the quoted answer that was typed at the wait right in front of it, with nothing else around them. */
  lemma {:induction false} RunSends(lines: seq<string>, number: string -> Number, m: Machine, ticks: seq<Tick>)
    requires Inv(lines, number, m) && Sends(lines, m)
    ensures Sends(lines, RunFrom(lines, number, m, ticks))
    decreases |ticks|
  {
    hide Step, Sends, LedTo, TimedAsk, EndifFrom;
    if ticks != [] {
      StepKeepsInv(lines, number, m, ticks[0]);
      StepSends(lines, number, m, ticks[0]);
      RunSends(lines, number, Step(lines, number, m, ticks[0]), ticks[1..]);
    }
  }
}
