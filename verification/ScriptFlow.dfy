/** Where a script goes: why every run ends, and what the tick machine does between waits. */
module ScriptFlow {
  import opened Options
  import opened Sequences
  import opened ScriptLines
  import opened ScriptMachine

  // ---- A rank for a place in a script ----

  function Pow(b: nat, e: nat): nat {
    if e == 0 then 1 else b * Pow(b, e - 1)
  }

  function Times(digit: nat, weight: nat): nat {
    digit * weight
  }

  /** Reads the remaining lines of each open call, outermost first, as the digits of one number in base
      n + 2; a call that is not open is the digit 0. */
  function Rank(n: nat, i: nat, stack: seq<nat>, width: nat): nat
    requires i <= n && |stack| < width
    requires forall k :: 0 <= k < |stack| ==> stack[k] <= n
    decreases |stack|
  {
    if stack == [] then Times(n - i + 1, Pow(n + 2, width - 1))
    else Times(n - stack[0] + 1, Pow(n + 2, width - 1)) + Rank(n, i, stack[1..], width - 1)
  }

  lemma {:induction false} PowPositive(b: nat, e: nat)
    requires b > 0
    ensures Pow(b, e) > 0
  {
    if e > 0 { PowPositive(b, e - 1); }
  }

  lemma {:induction false} Scale(a: nat, b: nat, p: nat)
    requires a <= b
    ensures a * p <= b * p
  {
  }

  lemma {:induction false} OneMore(a: nat, p: nat)
    ensures (a + 1) * p == a * p + p
  {
  }

  lemma {:induction false} RankBounds(n: nat, i: nat, stack: seq<nat>, width: nat)
    requires i <= n && |stack| < width
    requires forall k :: 0 <= k < |stack| ==> stack[k] <= n
    ensures 0 < Rank(n, i, stack, width) < Pow(n + 2, width)
    decreases |stack|
  {
    var p := Pow(n + 2, width - 1);
    PowPositive(n + 2, width - 1);
    if stack == [] {
      Scale(1, n - i + 1, p);
      Scale(n - i + 1, n + 1, p);
      OneMore(n + 1, p);
    } else {
      RankBounds(n, i, stack[1..], width - 1);
      Scale(n - stack[0] + 1, n + 1, p);
      OneMore(n + 1, p);
    }
  }

  /** Going to a later line of the same call falls. */
  lemma {:induction false} RankJump(n: nat, i: nat, j: nat, stack: seq<nat>, width: nat)
    requires i < j <= n && |stack| < width
    requires forall k :: 0 <= k < |stack| ==> stack[k] <= n
    ensures Rank(n, j, stack, width) < Rank(n, i, stack, width)
    decreases |stack|
  {
    if stack == [] {
      var p := Pow(n + 2, width - 1);
      PowPositive(n + 2, width - 1);
      Scale(n - j + 2, n - i + 1, p);
      OneMore(n - j + 1, p);
    } else {
      RankJump(n, i, j, stack[1..], width - 1);
    }
  }

  /** Opening a call that will go on at a later line falls, wherever the sub is. */
  lemma {:induction false} RankCall(n: nat, i: nat, resume: nat, j: nat, stack: seq<nat>, width: nat)
    requires i < resume <= n && j <= n && |stack| + 1 < width
    requires forall k :: 0 <= k < |stack| ==> stack[k] <= n
    ensures Rank(n, j, stack + [resume], width) < Rank(n, i, stack, width)
    decreases |stack|
  {
    if stack == [] {
      var p := Pow(n + 2, width - 1);
      NothingConcat([resume]);
      assert [resume][1..] == [];
      RankBounds(n, j, [], width - 1);
      Scale(n - resume + 2, n - i + 1, p);
      OneMore(n - resume + 1, p);
    } else {
      TailOfConcat(stack, [resume]);
      RankCall(n, i, resume, j, stack[1..], width - 1);
    }
  }

  /** Returning falls. */
  lemma {:induction false} RankReturn(n: nat, i: nat, resume: nat, stack: seq<nat>, width: nat)
    requires i <= n && resume <= n && |stack| + 1 < width
    requires forall k :: 0 <= k < |stack| ==> stack[k] <= n
    ensures Rank(n, resume, stack, width) < Rank(n, i, stack + [resume], width)
    decreases |stack|
  {
    if stack == [] {
      NothingConcat([resume]);
      assert [resume][1..] == [];
      RankBounds(n, i, [], width - 1);
    } else {
      TailOfConcat(stack, [resume]);
      RankReturn(n, i, resume, stack[1..], width - 1);
    }
  }

  const DIGITS: nat := MAX_GOSUB_DEPTH + 1

  ghost predicate InScript(n: nat, i: nat, stack: seq<nat>) {
    && i <= n && |stack| <= MAX_GOSUB_DEPTH
    && forall k :: 0 <= k < |stack| ==> stack[k] <= n
  }

  ghost function PlaceRank(n: nat, i: nat, stack: seq<nat>): nat
    requires InScript(n, i, stack)
  {
    Rank(n, i, stack, DIGITS)
  }

  // ---- Every tick waits, falls or ends ----

  ghost function RankOf(lines: seq<string>, m: Machine): nat
    requires InScript(|lines|, m.i, m.stack)
  {
    PlaceRank(|lines|, m.i, m.stack)
  }

  lemma {:induction false} InvIsInScript(lines: seq<string>, number: string -> Number, m: Machine)
    requires Inv(lines, number, m)
    ensures InScript(|lines|, m.i, m.stack)
  {
  }

  ghost predicate Stays(m: Machine, next: Machine) {
    next.i == m.i && next.stack == m.stack && next.state != GetCommand
  }

  /** The script ends, or the rank falls, or the machine waits where it is. */
  ghost predicate Progress(lines: seq<string>, m: Machine, next: Machine) {
    next.state == Done || Stays(m, next) ||
    (InScript(|lines|, m.i, m.stack) && InScript(|lines|, next.i, next.stack) && RankOf(lines, next) < RankOf(lines, m))
  }

  lemma {:induction false} JumpProgress(lines: seq<string>, m: Machine, next: Machine)
    requires InScript(|lines|, m.i, m.stack) && m.i < next.i <= |lines| && next.stack == m.stack
    ensures Progress(lines, m, next)
  {
    RankJump(|lines|, m.i, next.i, m.stack, DIGITS);
  }

  lemma {:induction false} CallProgress(lines: seq<string>, m: Machine, m0: Machine, name: string, resume: nat)
    requires InScript(|lines|, m.i, m.stack) && m.i < resume <= |lines| && m0.i == m.i && m0.stack == m.stack
    ensures Progress(lines, m, Call(m0, lines, name, resume)) && Progress(lines, m, Resumed(Call(m0, lines, name, resume)))
  {
    hide SubFrom, Rank;
    SubsStayInside(lines, 0, name);
    var sub := SubFrom(lines, 0, name);
    if sub < |lines| && |m.stack| < MAX_GOSUB_DEPTH {
      RankCall(|lines|, m.i, resume, sub + 1, m.stack, DIGITS);
    }
  }

  lemma {:induction false} ReturnProgress(lines: seq<string>, m: Machine)
    requires InScript(|lines|, m.i, m.stack)
    ensures Progress(lines, m, ReturnCommand(m))
  {
    if m.stack != [] {
      var init, last := m.stack[..|m.stack| - 1], m.stack[|m.stack| - 1];
      SnocSplit(m.stack);
      RankReturn(|lines|, m.i, last, init, DIGITS);
    }
  }

  lemma {:induction false} JumpStepProgress(lines: seq<string>, m: Machine, c: Command)
    requires InScript(|lines|, m.i, m.stack) && m.i < |lines| && m.state == GetCommand && IsJump(c)
    ensures Progress(lines, m, JumpStep(lines, m, c))
  {
    hide Progress, InScript, Call, SubCommand, SkipCommand, ReturnCommand;
    match c
    case End => Ended(lines, m, JumpStep(lines, m, c));
    case Gosub(name) => CallProgress(lines, m, m, name, m.i + 1);
    case Sub => SkipsProgress(lines, m);
    case Return => ReturnProgress(lines, m);
    case SkipToEndif => SkipsProgress(lines, m);
    case Endif => JumpProgress(lines, m, m.(i := m.i + 1));
  }

  lemma {:induction false} SkipsProgress(lines: seq<string>, m: Machine)
    requires InScript(|lines|, m.i, m.stack) && m.i < |lines| && m.state == GetCommand
    ensures Progress(lines, m, SubCommand(m, lines)) && Progress(lines, m, SkipCommand(m, lines))
  {
    hide Progress, InScript, EndifFrom, EndsubFrom;
    ScansStayInside(lines, m.i + 1, 0, ElseMark);
    SubsStayInside(lines, m.i + 1, "");
    var sub, skip := SubCommand(m, lines), SkipCommand(m, lines);
    if sub.state == Done { Ended(lines, m, sub); } else { JumpProgress(lines, m, sub); }
    if skip.state == Done { Ended(lines, m, skip); } else { JumpProgress(lines, m, skip); }
  }

  lemma {:induction false} Ended(lines: seq<string>, m: Machine, next: Machine)
    requires next.state == Done
    ensures Progress(lines, m, next)
  {
  }

  lemma {:induction false} AskStays(lines: seq<string>, number: string -> Number, m: Machine, line: string, now: real)
    requires m.state == GetCommand
    ensures AskCommand(m, line, now, number).state == Done || Stays(m, AskCommand(m, line, now, number))
  {
    hide ParseAsk, ScriptMachine.After;
  }

  lemma {:induction false} FileInStays(m: Machine, line: string, file: Option<string>)
    requires m.state == GetCommand
    ensures FileInCommand(m, line, file).state == Done || Stays(m, FileInCommand(m, line, file))
  {
    hide Between;
  }

  lemma {:induction false} IfStays(lines: seq<string>, m: Machine, line: string)
    requires m.state == GetCommand
    ensures IfCommand(m, lines, line).state == Done || Stays(m, IfCommand(m, lines, line))
  {
    hide EndifFrom, ScriptMachine.After;
  }

  lemma {:induction false} WaitingStays(lines: seq<string>, number: string -> Number, m: Machine, line: string,
      c: Command, t: Tick)
    requires m.state == GetCommand && !IsJump(c) && !IsInstant(c)
    ensures var next := WaitingStep(lines, number, m, line, c, t); next.state == Done || Stays(m, next)
  {
    hide AskCommand, FileInCommand, IfCommand;
    match c
    case Pause =>
    case Ask => AskStays(lines, number, m, line, t.now);
    case Run =>
    case WaitForResult =>
    case FileIn => FileInStays(m, line, t.file);
    case If => IfStays(lines, m, line);
    case Plain =>
  }

  lemma {:induction false} GetCommandProgress(lines: seq<string>, number: string -> Number, m: Machine, t: Tick)
    requires InScript(|lines|, m.i, m.stack) && m.state == GetCommand
    ensures Progress(lines, m, GetCommandStep(lines, number, m, t))
  {
    hide Classify, JumpStep, WaitingStep, Progress, InScript;
    if m.i < |lines| {
      var c := Classify(lines[m.i]);
      if IsJump(c) {
        JumpStepProgress(lines, m, c);
      } else if IsInstant(c) {
        JumpProgress(lines, m, InstantStep(m, lines[m.i], c));
      } else {
        WaitingStays(lines, number, m, lines[m.i], c, t);
        var next := WaitingStep(lines, number, m, lines[m.i], c, t);
        if next.state == Done { Ended(lines, m, next); } else { StaysIsProgress(lines, m, next); }
      }
    } else {
      Ended(lines, m, GetCommandStep(lines, number, m, t));
    }
  }

  lemma {:induction false} CallAfterAskProgress(lines: seq<string>, m: Machine, m0: Machine, name: string)
    requires InScript(|lines|, m.i, m.stack) && m.i < |lines| && m0.i == m.i && m0.stack == m.stack
    ensures Progress(lines, m, CallAfterAsk(lines, m0, name))
  {
    hide StartsWith, EndifFrom, Call, InScript, Progress, Resumed;
    if IfFollows(lines, m.i) {
      ScansStayInside(lines, m.i + 2, 0, ElseMark);
      if EndifFrom(lines, m.i + 2, 0) < |lines| {
        CallProgress(lines, m, m0, name, EndifFrom(lines, m.i + 2, 0) + 1);
      } else {
        Ended(lines, m, CallAfterAsk(lines, m0, name));
      }
    } else {
      CallProgress(lines, m, m0, name, m.i + 1);
    }
  }

  lemma {:induction false} AnsweredProgress(lines: seq<string>, m: Machine, t: Tick)
    requires InScript(|lines|, m.i, m.stack) && m.i < |lines| && m.state == WaitAsk
    ensures Progress(lines, m, AskAnswered(lines, m, t)) && Progress(lines, m, AskAnswered(lines, m, t).(deadline := None))
  {
    hide StartsWith, EndifFrom, QuotedAnswer, InScript, Progress, ScriptMachine.After;
    var next := AskAnswered(lines, m, t);
    if IfFollows(lines, m.i) && t.enterPressed && next.state != Done {
      JumpProgress(lines, m, next);
      JumpProgress(lines, m, next.(deadline := None));
    } else if next.state == Done {
      Ended(lines, m, next);
      Ended(lines, m, next.(deadline := None));
    } else {
      StaysIsProgress(lines, m, next);
      StaysIsProgress(lines, m, next.(deadline := None));
    }
  }

  lemma {:induction false} StaysIsProgress(lines: seq<string>, m: Machine, next: Machine)
    requires Stays(m, next)
    ensures Progress(lines, m, next)
  {
  }

  lemma {:induction false} WaitAskProgress(lines: seq<string>, number: string -> Number, m: Machine, t: Tick)
    requires InScript(|lines|, m.i, m.stack) && m.i < |lines| && m.state == WaitAsk
    ensures Progress(lines, m, WaitAskStep(lines, number, m, t))
  {
    hide ParseAsk, CallAfterAsk, AskAnswered, InScript, Progress;
    var header := ParseAsk(lines[m.i], number);
    var name := if header.Some? then header.value.name else "";
    CallAfterAskProgress(lines, m, m.(deadline := None, keyboard := m.savedKeyboard), name);
    AnsweredProgress(lines, m, t);
    var m1 := AskTimedOut(lines, number, m, t);
    TimedOutRestores(lines, number, m, t);
    if m1.state == Done { Ended(lines, m, m1); }
  }

  lemma {:induction false} BranchInside(lines: seq<string>, k: nat, wanted: Mark)
    requires (wanted == ElseMark || wanted == MaybeMark) && EndifFrom(lines, k, 0) < |lines|
    ensures k <= BranchFrom(lines, k, 0, wanted) <= |lines|
  {
    hide EndifFrom, BranchFrom, MarkOf;
    BranchLandsInBlock(lines, k, 0, wanted);
  }

  lemma {:induction false} IfAnsweredProgress(lines: seq<string>, m: Machine, t: Tick)
    requires InScript(|lines|, m.i, m.stack) && m.i < |lines| && m.state == WaitIfResponse
    requires EndifFrom(lines, m.i + 1, 0) < |lines|
    ensures Progress(lines, m, IfAnswered(lines, m, t))
  {
    hide EndifFrom, BranchFrom, InScript, Progress, MarkOf;
    var wanted := if t.answer == -1 then ElseMark else MaybeMark;
    BranchInside(lines, m.i + 1, wanted);
    if t.ifAnswered {
      JumpProgress(lines, m, IfAnswered(lines, m, t));
    } else {
      StaysIsProgress(lines, m, m);
    }
  }

  lemma {:induction false} AdvanceProgress(lines: seq<string>, number: string -> Number, m: Machine, t: Tick)
    requires Inv(lines, number, m)
    ensures Progress(lines, m, AdvanceStep(lines, number, m, t))
  {
    hide LedTo, TimedAsk, EndifFrom, GetCommandStep, WaitAskStep, IfAnswered;
    match m.state
    case GetCommand => GetCommandProgress(lines, number, m, t);
    case WaitAsk => WaitAskProgress(lines, number, m, t);
    case WaitIfResponse => IfAnsweredProgress(lines, m, t);
    case WaitEnter => if t.enterPressed { JumpProgress(lines, m, AdvanceStep(lines, number, m, t)); }
    case WaitResponse => if t.responseFinished { JumpProgress(lines, m, AdvanceStep(lines, number, m, t)); }
    case _ =>
  }

  lemma {:induction false} StepProgress(lines: seq<string>, number: string -> Number, m: Machine, t: Tick)
    requires Inv(lines, number, m)
    ensures Progress(lines, m, Step(lines, number, m, t))
  {
    hide AdvanceStep, Control, InScript, Rank;
    AdvanceProgress(lines, number, m, t);
    InvIsInScript(lines, number, m);
    InvBounds(lines, number, m);
    var next := Step(lines, number, m, t);
    if next.state == Done {
    } else if m.state == WaitToolResult && t.toolWaitOver {
      JumpProgress(lines, m, next);
    } else if m.state == RunTask {
      JumpProgress(lines, m, next);
    }
  }

  // ---- How many commands a run can dispatch ----

  /** A tick takes up a line: the machine looks at it in GetCommand, or goes straight from an answered
      [ASK] to the [IF] behind it. */
  predicate Dispatches(lines: seq<string>, m: Machine, next: Machine) {
    || (m.state == GetCommand && m.i < |lines|)
    || (m.state == WaitAsk && next.i == m.i + 1 && next.state != GetCommand && next.stack == m.stack)
  }

  ghost function Dispatched(lines: seq<string>, number: string -> Number, m: Machine, ticks: seq<Tick>): nat
    requires Inv(lines, number, m)
    decreases |ticks|
  {
    if ticks == [] then 0
    else
      StepKeepsInv(lines, number, m, ticks[0]);
      var next := Step(lines, number, m, ticks[0]);
      (if Dispatches(lines, m, next) then 1 else 0) + Dispatched(lines, number, next, ticks[1..])
  }

  /** What is left to dispatch. */
  ghost function Budget(lines: seq<string>, m: Machine): nat
    requires InScript(|lines|, m.i, m.stack)
  {
    RankBounds(|lines|, m.i, m.stack, DIGITS);
    if m.state == Done then 0 else if m.state == GetCommand then RankOf(lines, m) else RankOf(lines, m) - 1
  }

  lemma {:induction false} DispatchSpends(lines: seq<string>, number: string -> Number, m: Machine, t: Tick)
    requires Inv(lines, number, m)
    ensures InScript(|lines|, m.i, m.stack)
    ensures var next := Step(lines, number, m, t);
            && InScript(|lines|, next.i, next.stack)
            && Budget(lines, next) + (if Dispatches(lines, m, next) then 1 else 0) <= Budget(lines, m)
  {
    StepProgress(lines, number, m, t);
    StepKeepsInv(lines, number, m, t);
    var next := Step(lines, number, m, t);
    InvIsInScript(lines, number, m);
    InvIsInScript(lines, number, next);
    AskIfProgress(lines, number, m, t);
    assert m.state == Done ==> next == m;
    hide Step, Inv, InScript, Rank;
    RankBounds(|lines|, m.i, m.stack, DIGITS);
    RankBounds(|lines|, next.i, next.stack, DIGITS);
  }

  /** Even when the [IF] behind an [ASK] turns out to be broken, taking it up has cost a line. */
  lemma {:induction false} AskIfProgress(lines: seq<string>, number: string -> Number, m: Machine, t: Tick)
    requires Inv(lines, number, m)
    ensures InScript(|lines|, m.i, m.stack)
    ensures m.state == WaitAsk && Step(lines, number, m, t).i == m.i + 1 && Step(lines, number, m, t).stack == m.stack ==>
              RankOf(lines, m) > 1
  {
    InvIsInScript(lines, number, m);
    if m.state == WaitAsk {
      RankJump(|lines|, m.i, m.i + 1, m.stack, DIGITS);
      RankBounds(|lines|, m.i + 1, m.stack, DIGITS);
    }
  }

  lemma {:induction false} DispatchedWithinBudget(lines: seq<string>, number: string -> Number, m: Machine,
      ticks: seq<Tick>)
    requires Inv(lines, number, m)
    ensures InScript(|lines|, m.i, m.stack)
    ensures Dispatched(lines, number, m, ticks) <= Budget(lines, m)
    decreases |ticks|
  {
    InvIsInScript(lines, number, m);
    if ticks != [] {
      StepKeepsInv(lines, number, m, ticks[0]);
      DispatchSpends(lines, number, m, ticks[0]);
      DispatchedWithinBudget(lines, number, Step(lines, number, m, ticks[0]), ticks[1..]);
      hide Step, Inv, Budget, InScript, Dispatches;
    }
  }

  /** Every run of every script, well formed or not, whatever is answered, typed or timed out, takes up
      at most (n + 1) * (n + 2)^16 lines. */
  lemma {:induction false} EveryRunIsBounded(lines: seq<string>, number: string -> Number, keyboard: bool, tts: bool, echo: bool,
      ticks: seq<Tick>)
    ensures Inv(lines, number, Start(keyboard, tts, echo))
    ensures Dispatched(lines, number, Start(keyboard, tts, echo), ticks) <= (|lines| + 1) * Pow(|lines| + 2, MAX_GOSUB_DEPTH)
  {
    var m := Start(keyboard, tts, echo);
    StartIsFine(lines, number, keyboard, tts, echo);
    DispatchedWithinBudget(lines, number, m, ticks);
  }
}
