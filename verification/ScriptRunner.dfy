/** The script machine in the program's own form: an object whose fields every command updates in place
    (source/tools_task_script.cpp).  Each method is proved to make exactly the step `ScriptMachine` gives
    for it, so what is proved there about steps and runs holds of this object. */
module ScriptRunners {
  import opened Options
  import opened ScriptLines
  import opened ScriptMachine

  class ScriptRunner {
    const lines: seq<string>
    const number: string -> Number
    var state: State
    var i: nat
    var input: string
    var stack: seq<nat>
    var deadline: Option<real>
    var savedKeyboard: bool
    var keyboard: bool
    var tts: bool
    var echo: bool
    var shown: seq<Notice>

    function View(): Machine
      reads this
    {
      Machine(state, i, input, stack, deadline, savedKeyboard, keyboard, tts, echo, shown)
    }

    constructor (lines: seq<string>, number: string -> Number, keyboard: bool, tts: bool, echo: bool)
      ensures this.lines == lines && this.number == number
      ensures View() == Start(keyboard, tts, echo) && Inv(lines, number, View())
    {
      this.lines := lines;
      this.number := number;
      state, i, input, stack, deadline, savedKeyboard, shown := GetCommand, 0, "", [], None, true, [];
      this.keyboard, this.tts, this.echo := keyboard, tts, echo;
    }

    method Show(notice: Notice)
      modifies this`shown
      ensures shown == old(shown) + [notice]
    {
      shown := shown + [notice];
    }

    method StopScript(reason: Reason)
      modifies this
      ensures View() == Stop(old(View()), reason)
    {
      Show(ScriptError(reason));
      state := Done;
    }

    // ---- Commands ----

    method CommandPause()
      modifies this
      ensures View() == Enter(old(View()), WaitEnter, PressEnter)
    {
      savedKeyboard := keyboard;
      keyboard := true;
      Show(PressEnter);
      state := WaitEnter;
    }

    method CommandAsk(command: string, now: real)
      modifies this
      ensures View() == AskCommand(old(View()), command, now, number)
    {
      hide ParseAsk;
      var header := ParseAsk(command, number);
      if header.None? {
        StopScript(BadAsk);
        return;
      }
      if header.value.limit.Some? { deadline := Some(now + header.value.limit.value); }
      savedKeyboard := keyboard;
      keyboard := true;
      Show(Request(After(command, header.value.textStart)));
      state := WaitAsk;
    }

    method CommandRun(command: string)
      modifies this
      ensures View() == if |command| <= 6 then Stop(old(View()), EmptyRun) else old(View()).(state := RunTask)
    {
      if |command| <= 6 {
        StopScript(EmptyRun);
        return;
      }
      state := RunTask;
    }

    method CommandFileIn(command: string, file: Option<string>)
      modifies this
      ensures View() == FileInCommand(old(View()), command, file)
    {
      if file.Some? {
        input := file.value;
        state := ExecuteCommand;
      } else {
        savedKeyboard := keyboard;
        keyboard := true;
        Show(PasteFile(Between(command, 9)));
        state := WaitAsk;
      }
    }

    method CommandIf(command: string)
      modifies this
      ensures View() == IfCommand(old(View()), lines, command)
    {
      hide EndifFrom;
      var endif := FindEndif(lines, i + 1);
      if endif >= |lines| {
        StopScript(NoEndif);
        return;
      }
      input := After(command, 4);
      state := ExecuteIf;
    }

    method CommandSkipToEndif()
      modifies this
      ensures View() == SkipCommand(old(View()), lines)
    {
      hide EndifFrom;
      i := FindEndif(lines, i + 1);
      if i >= |lines| { StopScript(NoEndif); }
    }

    method CommandSub()
      requires i < |lines|
      modifies this
      ensures View() == SubCommand(old(View()), lines)
    {
      hide EndsubFrom;
      if stack != [] {
        StopScript(SubInsideSub);
        return;
      }
      var k := FindEndsub(lines, i + 1);
      if k >= |lines| {
        StopScript(NoEndsub);
        return;
      }
      i := k + 1;
    }

    /** Opens a call of the sub with this name that will go on at `resume`. */
    method CallSub(name: string, resume: nat)
      modifies this
      ensures View() == Call(old(View()), lines, name, resume)
    {
      hide SubFrom;
      var sub := FindSub(lines, name);
      if sub >= |lines| {
        StopScript(NoSuchSub(name));
        return;
      }
      if |stack| >= MAX_GOSUB_DEPTH {
        StopScript(TooDeep);
        return;
      }
      stack := stack + [resume];
      i := sub + 1;
    }

    method CommandReturn()
      modifies this
      ensures View() == ReturnCommand(old(View()))
    {
      if stack == [] {
        StopScript(NothingToReturn);
        return;
      }
      i := stack[|stack| - 1];
      stack := stack[..|stack| - 1];
    }

    method CommandAskTimedOut(t: Tick)
      requires i < |lines|
      modifies this
      ensures View() == AskTimedOut(lines, number, old(View()), t)
    {
      hide ParseAsk, CallAfterAsk;
      if deadline.None? || t.enterPressed || t.now < deadline.value { return; }
      deadline := None;
      keyboard := savedKeyboard;
      var header := ParseAsk(lines[i], number);
      var name := if header.Some? then header.value.name else "";
      if name == "" { state := Done; } else { CallForAsk(name); }
    }

    /** The last part of it: the sub goes on behind the [ASK] and the [IF] block that follows it. */
    method CallForAsk(name: string)
      requires i < |lines|
      modifies this
      ensures View() == CallAfterAsk(lines, old(View()), name)
    {
      hide EndifFrom, Call, IfFollows;
      var resume := i + 1;
      if IfFollows(lines, i) {
        var endif := FindEndif(lines, resume + 1);
        if endif >= |lines| {
          StopScript(NoEndif);
          return;
        }
        resume := endif + 1;
      }
      CallSub(name, resume);
      if state != Done { state := GetCommand; }
    }

    method TakeJump(c: Command)
      requires i < |lines| && IsJump(c)
      modifies this
      ensures View() == JumpStep(lines, old(View()), c)
    {
      hide Call, SubCommand, ReturnCommand, SkipCommand;
      match c
      case End => state := Done;
      case Gosub(name) => CallSub(name, i + 1);
      case Sub => CommandSub();
      case Return => CommandReturn();
      case SkipToEndif => CommandSkipToEndif();
      case Endif => i := i + 1;
    }

    method TakeInstant(command: string, c: Command)
      requires IsInstant(c)
      modifies this
      ensures View() == InstantStep(old(View()), command, c)
    {
      hide After;
      match c {
        case Print => Show(Printed(After(command, 7)));
        case FileAppend =>
        case KeyboardInput(on) => keyboard := on;
        case TtsOutput(on) => tts := on;
        case EchoInput(on) => echo := on;
      }
      i := i + 1;
    }

    method BeginWaiting(command: string, c: Command, t: Tick)
      requires !IsJump(c) && !IsInstant(c)
      modifies this
      ensures View() == WaitingStep(lines, number, old(View()), command, c, t)
    {
      hide Stop, Enter, AskCommand, FileInCommand, IfCommand;
      match c
      case Pause => CommandPause();
      case Ask => CommandAsk(command, t.now);
      case Run => CommandRun(command);
      case WaitForResult => state := WaitToolResult;
      case FileIn => CommandFileIn(command, t.file);
      case If => CommandIf(command);
      case Plain =>
        input := command;
        state := ExecuteCommand;
    }

    method CommandGetCommand(t: Tick)
      modifies this
      ensures View() == GetCommandStep(lines, number, old(View()), t)
    {
      hide Classify, JumpStep, InstantStep, WaitingStep;
      if i >= |lines| {
        state := Done;
        return;
      }
      var command := lines[i];
      var c := Classify(command);
      if IsJump(c) {
        TakeJump(c);
      } else if IsInstant(c) {
        TakeInstant(command, c);
      } else {
        BeginWaiting(command, c, t);
      }
    }

    // ---- Waits ----

    method CommandWaitEnter(t: Tick)
      requires state == WaitEnter
      modifies this
      ensures View() == AdvanceStep(lines, number, old(View()), t)
    {
      if t.enterPressed {
        keyboard := savedKeyboard;
        i := i + 1;
        state := GetCommand;
      }
    }

    method CommandWaitAsk(t: Tick)
      requires !IfFollows(lines, i)
      modifies this
      ensures View() == AskAnswered(lines, old(View()), t)
    {
      if t.enterPressed {
        keyboard := savedKeyboard;
        input := t.typed;
        state := ExecuteCommand;
      }
    }

    method CommandWaitAskForIf(t: Tick)
      requires IfFollows(lines, i)
      modifies this
      ensures View() == AskAnswered(lines, old(View()), t)
    {
      hide StartsWith, IfCommand, TrimNewlines;
      if !t.enterPressed { return; }
      keyboard := savedKeyboard;
      var typed := TrimmedOfNewlines(t.typed);
      i := i + 1;
      CommandIf(lines[i]);
      if state != ExecuteIf { return; }
      input := "The player's answer: \"" + typed + "\"\n" + input;
    }

    method WaitForAnswer(t: Tick)
      requires state == WaitAsk && i < |lines|
      modifies this
      ensures View() == WaitAskStep(lines, number, old(View()), t)
    {
      hide AskTimedOut, AskAnswered, IfFollows;
      CommandAskTimedOut(t);
      if state != WaitAsk { return; }
      if IfFollows(lines, i) {
        CommandWaitAskForIf(t);
      } else {
        CommandWaitAsk(t);
      }
      if state != WaitAsk { deadline := None; }
    }

    method CommandExecuteCommand(t: Tick)
      requires state == ExecuteCommand || state == ExecuteIf
      modifies this
      ensures View() == AdvanceStep(lines, number, old(View()), t)
    {
      if echo { Show(Echoed(input)); }
      state := if state == ExecuteIf then WaitIfResponse else WaitResponse;
    }

    method CommandWaitResponse(t: Tick)
      requires state == WaitResponse
      modifies this
      ensures View() == AdvanceStep(lines, number, old(View()), t)
    {
      if t.responseFinished {
        i := i + 1;
        state := GetCommand;
      }
    }

    method CommandWaitIfResponse(t: Tick)
      modifies this
      ensures View() == IfAnswered(lines, old(View()), t)
    {
      hide BranchFrom;
      if !t.ifAnswered { return; }
      if t.answer == 1 {
        i := i + 1;
      } else {
        i := FindBranchStart(lines, i + 1, if t.answer == -1 then "[else]" else "[maybe]");
      }
      state := GetCommand;
    }

    method AdvanceScriptState(t: Tick)
      requires state == WaitAsk ==> i < |lines|
      modifies this
      ensures View() == AdvanceStep(lines, number, old(View()), t)
    {
      hide GetCommandStep, WaitAskStep, IfAnswered;
      match state
      case GetCommand => CommandGetCommand(t);
      case WaitEnter => CommandWaitEnter(t);
      case WaitAsk => WaitForAnswer(t);
      case ExecuteCommand => CommandExecuteCommand(t);
      case ExecuteIf => CommandExecuteCommand(t);
      case WaitResponse => CommandWaitResponse(t);
      case WaitIfResponse => CommandWaitIfResponse(t);
      case WaitToolResult =>
      case RunTask =>
      case Done =>
    }

    // ---- The loop that drives it ----

    method RunTaskTurn(t: Tick)
      modifies this
      ensures View() == RunTaskStep(old(View()), t)
    {
      match t.run
      case NotKnown => StopScript(UnknownTask);
      case NestedTooDeep => StopScript(RunTooDeep);
      case Finished =>
        i := i + 1;
        state := GetCommand;
    }

    /** One turn of the loop. */
    method Turn(t: Tick)
      requires Inv(lines, number, View())
      modifies this
      ensures View() == Step(lines, number, old(View()), t) && Inv(lines, number, View())
    {
      hide Control, AdvanceStep, RunTaskStep;
      StepKeepsInv(lines, number, View(), t);
      WaitsOnALine(lines, number, View());
      if state == WaitToolResult {
        if t.toolWaitOver {
          i := i + 1;
          state := GetCommand;
        }
      } else if state == RunTask {
        RunTaskTurn(t);
      } else {
        AdvanceScriptState(t);
      }
      if t.exitRequested { state := Done; }
    }

    /** Turns until the script is over or there are no more ticks; the rest of the ticks would change
        nothing. */
    method RunScript(ticks: seq<Tick>)
      requires Inv(lines, number, View())
      modifies this
      ensures Inv(lines, number, old(View())) && View() == RunFrom(lines, number, old(View()), ticks)
    {
      ghost var start := View();
      var k := 0;
      hide Step, Inv;
      while k < |ticks| && state != Done
        invariant k <= |ticks| && Inv(lines, number, View())
        invariant RunFrom(lines, number, View(), ticks[k..]) == RunFrom(lines, number, start, ticks)
      {
        assert ticks[k..][0] == ticks[k] && ticks[k..][1..] == ticks[k + 1..];
        Turn(ticks[k]);
        k := k + 1;
      }
      if k < |ticks| { DoneStays(lines, number, View(), ticks[k..]); }
    }
  }

  method TrimmedOfNewlines(s: string) returns (r: string)
    ensures r == TrimNewlines(s)
  {
    r := s;
    while r != "" && (r[|r| - 1] == '\n' || r[|r| - 1] == '\r')
      invariant TrimNewlines(r) == TrimNewlines(s)
      decreases |r|
    {
      r := r[..|r| - 1];
    }
  }

  /** Trimming takes newlines off the end, all of them, and nothing else. */
  lemma {:induction false} TrimmedMeans(s: string) returns (gone: string)
    ensures s == TrimNewlines(s) + gone && (forall k :: 0 <= k < |gone| ==> gone[k] == '\n' || gone[k] == '\r')
    ensures var r := TrimNewlines(s); r != "" ==> r[|r| - 1] != '\n' && r[|r| - 1] != '\r'
  {
    if s != "" && (s[|s| - 1] == '\n' || s[|s| - 1] == '\r') {
      var rest := TrimmedMeans(s[..|s| - 1]);
      gone := rest + [s[|s| - 1]];
    } else {
      gone := "";
    }
  }

  lemma {:induction false} WaitsOnALine(lines: seq<string>, number: string -> Number, m: Machine)
    requires Inv(lines, number, m)
    ensures m.state == WaitAsk ==> m.i < |lines|
  {
  }

  lemma {:induction false} DoneStays(lines: seq<string>, number: string -> Number, m: Machine, ticks: seq<Tick>)
    requires Inv(lines, number, m) && m.state == Done
    ensures RunFrom(lines, number, m, ticks) == m
    decreases |ticks|
  {
    if ticks != [] {
      assert Step(lines, number, m, ticks[0]) == m;
      DoneStays(lines, number, m, ticks[1..]);
    }
  }
}
