/** The machine that runs a `.task` script, one step per tick (source/tools_task_script.cpp, and the
    loop around it in source/tools.cpp).

    `Step` says what one tick does to the machine's variables; `ScriptRunner` is the program's own
    form, with its fields updated in place.  Everything from outside (the clock, the keyboard, the
    model, files, other tasks) comes in through `Tick`. */
module ScriptMachine {
  import opened Options
  import opened ScriptLines

  const MAX_GOSUB_DEPTH: nat := 16

  datatype State =
    | GetCommand | ExecuteCommand | WaitResponse | WaitEnter | WaitAsk | WaitToolResult
    | ExecuteIf | WaitIfResponse | RunTask | Done

  datatype Reason =
    | BadAsk | EmptyRun | NoEndif | SubInsideSub | NoEndsub | NoSuchSub(name: string) | TooDeep
    | NothingToReturn | UnknownTask | RunTooDeep

  /** What the script shows on the screen. */
  datatype Notice =
    | PressEnter | Request(text: string) | PasteFile(name: string) | Printed(text: string)
    | Echoed(input: string) | ScriptError(reason: Reason)

  /** How another task started by [RUN] ends for the script that started it. */
  datatype RunOutcome = NotKnown | NestedTooDeep | Finished

  /** What a tick finds outside the machine. */
  datatype Tick = Tick(
    now: real,
    enterPressed: bool, typed: string,
    responseFinished: bool,
    ifAnswered: bool, answer: int,
    file: Option<string>,
    toolWaitOver: bool,
    run: RunOutcome,
    exitRequested: bool)

  datatype Machine = Machine(
    state: State, i: nat, input: string, stack: seq<nat>,
    deadline: Option<real>, savedKeyboard: bool,
    keyboard: bool, tts: bool, echo: bool,
    shown: seq<Notice>)

  // ---- [ASK] headers ----

  /** What the text-to-number conversion makes of the seconds; `Unreadable` also covers trailing text. */
  datatype Number = Unreadable | NotANumber | Value(value: real)

  /** An accepted [ASK] line. */
  datatype AskHeader = AskHeader(limit: Option<real>, name: string, textStart: nat)

  function Find(s: string, c: char, from: nat): nat
    requires from <= |s|
    ensures from <= Find(s, c, from) <= |s|
    ensures Find(s, c, from) < |s| ==> s[Find(s, c, from)] == c
    decreases |s| - from
  {
    if from == |s| || s[from] == c then from else Find(s, c, from + 1)
  }

  /** "[ASK]text", "[ASK:30]text" or "[ASK:30,name]text"; a number of seconds must be above 0, and
      one that is not a number at all slips through as no limit. */
  function ParseAsk(line: string, number: string -> Number): (header: Option<AskHeader>)
    ensures header.Some? ==> header.value.textStart <= |line|
    ensures header.Some? && header.value.limit.Some? ==> header.value.limit.value > 0.0
  {
    if StartsWith(line, "[ask]") then Some(AskHeader(None, "", 5))
    else if |line| < 5 then None
    else
      var close := Find(line, ']', 5);
      if close == |line| then None
      else
        var header := line[5..close];
        var comma := Find(header, ',', 0);
        var name := if comma < |header| then header[comma + 1..] else "";
        match number(header[..comma])
        case Unreadable => None
        case NotANumber => Some(AskHeader(None, name, close + 1))
        case Value(v) => if v <= 0.0 then None else Some(AskHeader(Some(v), name, close + 1))
  }

  // ---- One tick, as functions of the machine ----

  function After(line: string, n: nat): string {
    if |line| >= n then line[n..] else ""
  }

  function Between(line: string, n: nat): string {
    if |line| > n then line[n..|line| - 1] else ""
  }

  function Stop(m: Machine, reason: Reason): Machine {
    m.(state := Done, shown := m.shown + [ScriptError(reason)])
  }

  function Enter(m: Machine, wait: State, notice: Notice): Machine {
    m.(state := wait, savedKeyboard := m.keyboard, keyboard := true, shown := m.shown + [notice])
  }

  function AskCommand(m: Machine, line: string, now: real, number: string -> Number): Machine {
    match ParseAsk(line, number)
    case None => Stop(m, BadAsk)
    case Some(h) =>
      Enter(m, WaitAsk, Request(After(line, h.textStart)))
      .(deadline := if h.limit.Some? then Some(now + h.limit.value) else m.deadline)
  }

  function FileInCommand(m: Machine, line: string, file: Option<string>): Machine {
    match file
    case Some(content) => m.(input := content, state := ExecuteCommand)
    case None => Enter(m, WaitAsk, PasteFile(Between(line, 9)))
  }

  /** Calls a sub: remembers where to go on, and goes to the line after the sub's header. */
  function Call(m: Machine, lines: seq<string>, name: string, resume: nat): Machine {
    var sub := SubFrom(lines, 0, name);
    if sub >= |lines| then Stop(m, NoSuchSub(name))
    else if |m.stack| >= MAX_GOSUB_DEPTH then Stop(m, TooDeep)
    else m.(stack := m.stack + [resume], i := sub + 1)
  }

  function SubCommand(m: Machine, lines: seq<string>): Machine {
    if m.stack != [] then Stop(m, SubInsideSub)
    else
      var k := EndsubFrom(lines, m.i + 1);
      if k >= |lines| then Stop(m, NoEndsub) else m.(i := k + 1)
  }

  function ReturnCommand(m: Machine): Machine {
    if m.stack == [] then Stop(m, NothingToReturn)
    else m.(i := m.stack[|m.stack| - 1], stack := m.stack[..|m.stack| - 1])
  }

  function IfCommand(m: Machine, lines: seq<string>, line: string): Machine {
    if EndifFrom(lines, m.i + 1, 0) >= |lines| then Stop(m, NoEndif)
    else m.(input := After(line, 4), state := ExecuteIf)
  }

  function SkipCommand(m: Machine, lines: seq<string>): Machine {
    var k := EndifFrom(lines, m.i + 1, 0);
    if k >= |lines| then Stop(m.(i := k), NoEndif) else m.(i := k)
  }

  /** Lines that only move the machine to another line, or end the script. */
  predicate IsJump(c: Command) {
    c.End? || c.Gosub? || c.Sub? || c.Return? || c.SkipToEndif? || c.Endif?
  }

  /** Lines that do something at once and go on with the next line. */
  predicate IsInstant(c: Command) {
    c.Print? || c.FileAppend? || c.KeyboardInput? || c.TtsOutput? || c.EchoInput?
  }

  function JumpStep(lines: seq<string>, m: Machine, c: Command): Machine
    requires IsJump(c)
  {
    match c
    case End => m.(state := Done)
    case Gosub(name) => Call(m, lines, name, m.i + 1)
    case Sub => SubCommand(m, lines)
    case Return => ReturnCommand(m)
    case SkipToEndif => SkipCommand(m, lines)
    case Endif => m.(i := m.i + 1)
  }

  function InstantStep(m: Machine, line: string, c: Command): Machine
    requires IsInstant(c)
  {
    var m1 := m.(i := m.i + 1);
    match c
    case Print => m1.(shown := m.shown + [Printed(After(line, 7))])
    case FileAppend => m1
    case KeyboardInput(on) => m1.(keyboard := on)
    case TtsOutput(on) => m1.(tts := on)
    case EchoInput(on) => m1.(echo := on)
  }

  function WaitingStep(lines: seq<string>, number: string -> Number, m: Machine, line: string, c: Command,
      t: Tick): Machine
    requires !IsJump(c) && !IsInstant(c)
  {
    match c
    case Pause => Enter(m, WaitEnter, PressEnter)
    case Ask => AskCommand(m, line, t.now, number)
    case Run => if |line| <= 6 then Stop(m, EmptyRun) else m.(state := RunTask)
    case WaitForResult => m.(state := WaitToolResult)
    case FileIn => FileInCommand(m, line, t.file)
    case If => IfCommand(m, lines, line)
    case Plain => m.(input := line, state := ExecuteCommand)
  }

  function GetCommandStep(lines: seq<string>, number: string -> Number, m: Machine, t: Tick): Machine {
    if m.i >= |lines| then m.(state := Done)
    else
      var line := lines[m.i];
      var c := Classify(line);
      if IsJump(c) then JumpStep(lines, m, c)
      else if IsInstant(c) then InstantStep(m, line, c)
      else WaitingStep(lines, number, m, line, c, t)
  }

  predicate IfFollows(lines: seq<string>, i: nat) {
    i + 1 < |lines| && StartsWith(lines[i + 1], "[if]")
  }

  /** Gives up waiting when an [ASK] has a time limit, nothing was entered and the limit has passed. */
  function AskTimedOut(lines: seq<string>, number: string -> Number, m: Machine, t: Tick): Machine
    requires m.i < |lines|
  {
    if m.deadline.None? || t.enterPressed || t.now < m.deadline.value then m
    else
      var m1 := m.(deadline := None, keyboard := m.savedKeyboard);
      var header := ParseAsk(lines[m.i], number);
      var name := if header.Some? then header.value.name else "";
      if name == "" then m1.(state := Done) else CallAfterAsk(lines, m1, name)
  }

  /** Where a timed-out [ASK] goes on after its sub: past the whole [IF] block if one follows. */
  function CallAfterAsk(lines: seq<string>, m: Machine, name: string): Machine {
    if IfFollows(lines, m.i) then
      var endif := EndifFrom(lines, m.i + 2, 0);
      if endif >= |lines| then Stop(m, NoEndif) else Resumed(Call(m, lines, name, endif + 1))
    else Resumed(Call(m, lines, name, m.i + 1))
  }

  function Resumed(m: Machine): Machine {
    if m.state == Done then m else m.(state := GetCommand)
  }

  function TrimNewlines(s: string): string {
    if s != "" && (s[|s| - 1] == '\n' || s[|s| - 1] == '\r') then TrimNewlines(s[..|s| - 1]) else s
  }

  /** An [IF] right after the [ASK] judges what was typed. */
  function AnswerForIf(lines: seq<string>, m: Machine, typed: string): Machine
    requires m.i + 1 < |lines|
  {
    var m2 := IfCommand(m.(i := m.i + 1), lines, lines[m.i + 1]);
    if m2.state != ExecuteIf then m2 else m2.(input := QuotedAnswer(typed) + m2.input)
  }

  function QuotedAnswer(typed: string): string {
    "The player's answer: \"" + TrimNewlines(typed) + "\"\n"
  }

  function AskAnswered(lines: seq<string>, m: Machine, t: Tick): Machine {
    if !t.enterPressed then m
    else
      var m1 := m.(keyboard := m.savedKeyboard);
      if IfFollows(lines, m.i) then AnswerForIf(lines, m1, t.typed)
      else m1.(input := t.typed, state := ExecuteCommand)
  }

  function WaitAskStep(lines: seq<string>, number: string -> Number, m: Machine, t: Tick): Machine
    requires m.i < |lines|
  {
    var m1 := AskTimedOut(lines, number, m, t);
    if m1.state != WaitAsk then m1
    else
      var m2 := AskAnswered(lines, m1, t);
      if m2.state != WaitAsk then m2.(deadline := None) else m2
  }

  function IfAnswered(lines: seq<string>, m: Machine, t: Tick): Machine {
    if !t.ifAnswered then m
    else if t.answer == 1 then m.(i := m.i + 1, state := GetCommand)
    else m.(i := BranchFrom(lines, m.i + 1, 0, if t.answer == -1 then ElseMark else MaybeMark), state := GetCommand)
  }

  function AdvanceStep(lines: seq<string>, number: string -> Number, m: Machine, t: Tick): Machine
    requires m.state == WaitAsk ==> m.i < |lines|
  {
    match m.state
    case GetCommand => GetCommandStep(lines, number, m, t)
    case WaitEnter =>
      if t.enterPressed then m.(keyboard := m.savedKeyboard, i := m.i + 1, state := GetCommand) else m
    case WaitAsk => WaitAskStep(lines, number, m, t)
    case ExecuteCommand => m.(shown := m.shown + (if m.echo then [Echoed(m.input)] else []), state := WaitResponse)
    case ExecuteIf => m.(shown := m.shown + (if m.echo then [Echoed(m.input)] else []), state := WaitIfResponse)
    case WaitResponse => if t.responseFinished then m.(i := m.i + 1, state := GetCommand) else m
    case WaitIfResponse => IfAnswered(lines, m, t)
    case WaitToolResult => m
    case RunTask => m
    case Done => m
  }

  function RunTaskStep(m: Machine, t: Tick): Machine {
    match t.run
    case NotKnown => Stop(m, UnknownTask)
    case NestedTooDeep => Stop(m, RunTooDeep)
    case Finished => m.(i := m.i + 1, state := GetCommand)
  }

  /** The part of the loop around the machine that knows about tool results and other tasks. */
  function DriveStep(lines: seq<string>, number: string -> Number, m: Machine, t: Tick): Machine
    requires m.state == WaitAsk ==> m.i < |lines|
  {
    if m.state == WaitToolResult then
      if t.toolWaitOver then m.(i := m.i + 1, state := GetCommand) else m
    else if m.state == RunTask then RunTaskStep(m, t)
    else AdvanceStep(lines, number, m, t)
  }

  /** One turn of the loop that drives a script; a request to exit ends the script. */
  function Step(lines: seq<string>, number: string -> Number, m: Machine, t: Tick): Machine
    requires m.state == WaitAsk ==> m.i < |lines|
  {
    var m1 := DriveStep(lines, number, m, t);
    if t.exitRequested then m1.(state := Done) else m1
  }

  function Start(keyboard: bool, tts: bool, echo: bool): Machine {
    Machine(GetCommand, 0, "", [], None, true, keyboard, tts, echo, [])
  }

  // ---- What every state of every run satisfies ----

  predicate GoodAsk(line: string, number: string -> Number) {
    Classify(line) == Ask && ParseAsk(line, number).Some?
  }

  predicate TimedAsk(line: string, number: string -> Number) {
    GoodAsk(line, number) && ParseAsk(line, number).value.limit.Some?
  }

  /** The line is of the kind that leads to the state. */
  predicate LedTo(line: string, number: string -> Number, s: State) {
    match s
    case WaitEnter => Classify(line) == Pause
    case WaitAsk => Classify(line) == FileIn || GoodAsk(line, number)
    case ExecuteIf => Classify(line) == If
    case WaitIfResponse => Classify(line) == If
    case RunTask => Classify(line) == Run && |line| > 6
    case WaitToolResult => Classify(line) == WaitForResult
    case ExecuteCommand => Classify(line) == Plain || Classify(line) == FileIn || GoodAsk(line, number)
    case WaitResponse => Classify(line) == Plain || Classify(line) == FileIn || GoodAsk(line, number)
    case GetCommand => true
    case Done => true
  }

  /** What holds of the control part of every reachable state: every remembered line exists; the line a
      waiting machine stands on is the one that started the wait; an open question has its [ENDIF]; a
      time limit runs only while an [ASK] that has one is waiting. */
  ghost predicate Control(lines: seq<string>, number: string -> Number,
                          s: State, i: nat, stack: seq<nat>, deadline: Option<real>)
  {
    && i <= |lines|
    && |stack| <= MAX_GOSUB_DEPTH
    && (forall k :: 0 <= k < |stack| ==> stack[k] <= |lines|)
    && (s != GetCommand && s != Done ==> i < |lines| && LedTo(lines[i], number, s))
    && (s == ExecuteIf || s == WaitIfResponse ==> EndifFrom(lines, i + 1, 0) < |lines|)
    && (deadline.Some? && s != Done ==> s == WaitAsk && TimedAsk(lines[i], number))
  }

  ghost predicate Inv(lines: seq<string>, number: string -> Number, m: Machine) {
    Control(lines, number, m.state, m.i, m.stack, m.deadline)
  }

  lemma {:induction false} ScansStayInside(lines: seq<string>, k: nat, depth: nat, wanted: Mark)
    requires k <= |lines|
    ensures EndifFrom(lines, k, depth) <= |lines| && (EndifFrom(lines, k, depth) < |lines| ==> k <= EndifFrom(lines, k, depth))
    ensures BranchFrom(lines, k, depth, wanted) <= |lines|
    decreases |lines| - k
  {
    hide MarkOf;
    if k < |lines| {
      ScansStayInside(lines, k + 1, depth, wanted);
      ScansStayInside(lines, k + 1, depth + 1, wanted);
      if depth > 0 { ScansStayInside(lines, k + 1, depth - 1, wanted); }
    }
  }

  lemma {:induction false} SubsStayInside(lines: seq<string>, k: nat, name: string)
    requires k <= |lines|
    ensures k <= SubFrom(lines, k, name) <= |lines| && k <= EndsubFrom(lines, k) <= |lines|
    decreases |lines| - k
  {
    if k < |lines| { SubsStayInside(lines, k + 1, name); }
  }

  lemma {:induction false} BeginWait(lines: seq<string>, number: string -> Number, m: Machine, s: State)
    requires Inv(lines, number, m) && m.state == GetCommand && m.i < |lines| && LedTo(lines[m.i], number, s)
    ensures m.deadline == None
    ensures s != ExecuteIf && s != WaitIfResponse ==> Control(lines, number, s, m.i, m.stack, None)
  {
    hide LedTo, ParseAsk, Classify;
  }

  lemma {:induction false} Halt(lines: seq<string>, number: string -> Number, m: Machine, i: nat)
    requires Inv(lines, number, m) && i <= |lines|
    ensures Control(lines, number, Done, i, m.stack, m.deadline) && Control(lines, number, Done, i, m.stack, None)
  {
  }

  lemma {:induction false} HaltHere(lines: seq<string>, number: string -> Number, m: Machine)
    requires Inv(lines, number, m)
    ensures Inv(lines, number, m.(state := Done))
  {
  }

  lemma {:induction false} NoDeadline(lines: seq<string>, number: string -> Number, m: Machine)
    requires Inv(lines, number, m) && m.state == GetCommand
    ensures m.deadline == None
  {
    hide LedTo, TimedAsk, EndifFrom;
  }

  lemma {:induction false} InvBounds(lines: seq<string>, number: string -> Number, m: Machine)
    requires Inv(lines, number, m)
    ensures m.i <= |lines| && (m.state != GetCommand && m.state != Done ==> m.i < |lines|)
  {
    hide LedTo, TimedAsk, EndifFrom;
  }

  lemma {:induction false} StopKeepsInv(lines: seq<string>, number: string -> Number, m: Machine, reason: Reason)
    requires Inv(lines, number, m)
    ensures Inv(lines, number, Stop(m.(deadline := None), reason)) && Stop(m.(deadline := None), reason).state == Done
  {
  }

  lemma {:induction false} Jump(lines: seq<string>, number: string -> Number, m: Machine, i: nat)
    requires Inv(lines, number, m) && i <= |lines|
    ensures Control(lines, number, GetCommand, i, m.stack, None)
  {
  }

  lemma {:induction false} PushPop(lines: seq<string>, number: string -> Number, m: Machine, i: nat, resume: nat)
    requires Inv(lines, number, m) && i <= |lines| && resume <= |lines|
    ensures |m.stack| < MAX_GOSUB_DEPTH ==> Control(lines, number, GetCommand, i, m.stack + [resume], None)
    ensures m.stack != [] ==> Control(lines, number, GetCommand, m.stack[|m.stack| - 1], m.stack[..|m.stack| - 1], None)
  {
  }

  lemma {:induction false} AskKeepsInv(lines: seq<string>, number: string -> Number, m: Machine, now: real)
    requires Inv(lines, number, m) && m.state == GetCommand && m.i < |lines| && Classify(lines[m.i]) == Ask
    ensures Inv(lines, number, AskCommand(m, lines[m.i], now, number))
  {
    hide Classify, ParseAsk;
  }

  lemma {:induction false} CallKeepsInv(lines: seq<string>, number: string -> Number, m: Machine, name: string,
      resume: nat)
    requires Inv(lines, number, m) && resume <= |lines| && (m.state == GetCommand || m.state == WaitAsk)
    ensures Inv(lines, number, Resumed(Call(m.(deadline := None), lines, name, resume)))
    ensures Resumed(Call(m.(deadline := None), lines, name, resume)).state != WaitAsk
    ensures m.state == GetCommand ==> Inv(lines, number, Call(m, lines, name, resume))
  {
    hide Control, SubFrom;
    SubsStayInside(lines, 0, name);
    var sub := SubFrom(lines, 0, name);
    InvBounds(lines, number, m);
    if m.state == GetCommand { NoDeadline(lines, number, m); }
    if sub >= |lines| || |m.stack| >= MAX_GOSUB_DEPTH {
      Halt(lines, number, m, m.i);
    } else {
      PushPop(lines, number, m, sub + 1, resume);
    }
  }

  lemma {:induction false} SubKeepsInv(lines: seq<string>, number: string -> Number, m: Machine)
    requires Inv(lines, number, m) && m.state == GetCommand && m.i < |lines|
    ensures Inv(lines, number, SubCommand(m, lines))
  {
    hide Control, EndsubFrom;
    SubsStayInside(lines, m.i + 1, "");
    NoDeadline(lines, number, m);
    Halt(lines, number, m, m.i);
    if EndsubFrom(lines, m.i + 1) < |lines| { Jump(lines, number, m, EndsubFrom(lines, m.i + 1) + 1); }
  }

  lemma {:induction false} SkipKeepsInv(lines: seq<string>, number: string -> Number, m: Machine)
    requires Inv(lines, number, m) && m.state == GetCommand && m.i < |lines|
    ensures Inv(lines, number, SkipCommand(m, lines))
  {
    hide Control, EndifFrom;
    ScansStayInside(lines, m.i + 1, 0, ElseMark);
    NoDeadline(lines, number, m);
    Halt(lines, number, m, EndifFrom(lines, m.i + 1, 0));
    Jump(lines, number, m, EndifFrom(lines, m.i + 1, 0));
  }

  lemma {:induction false} ReturnKeepsInv(lines: seq<string>, number: string -> Number, m: Machine)
    requires Inv(lines, number, m) && m.state == GetCommand
    ensures Inv(lines, number, ReturnCommand(m))
  {
    NoDeadline(lines, number, m);
    hide Control;
    Halt(lines, number, m, 0);
    PushPop(lines, number, m, 0, 0);
    InvBounds(lines, number, m);
    Halt(lines, number, m, m.i);
  }

  lemma {:induction false} JumpKeepsInv(lines: seq<string>, number: string -> Number, m: Machine, c: Command)
    requires Inv(lines, number, m) && m.state == GetCommand && m.i < |lines| && IsJump(c)
    ensures Inv(lines, number, JumpStep(lines, m, c))
  {
    hide Control, SubCommand, SkipCommand, ReturnCommand, Call;
    NoDeadline(lines, number, m);
    match c
    case End => Halt(lines, number, m, m.i);
    case Gosub(name) => CallKeepsInv(lines, number, m, name, m.i + 1);
    case Sub => SubKeepsInv(lines, number, m);
    case Return => ReturnKeepsInv(lines, number, m);
    case SkipToEndif => SkipKeepsInv(lines, number, m);
    case Endif => Jump(lines, number, m, m.i + 1);
  }

  lemma {:induction false} IfKeepsInv(lines: seq<string>, number: string -> Number, m: Machine)
    requires Inv(lines, number, m) && m.i < |lines| && Classify(lines[m.i]) == If
    ensures Inv(lines, number, IfCommand(m.(deadline := None), lines, lines[m.i]))
    ensures IfCommand(m, lines, lines[m.i]).state == Done || IfCommand(m, lines, lines[m.i]).state == ExecuteIf
  {
    hide Classify, ParseAsk, EndifFrom;
  }

  lemma {:induction false} WaitingKeepsInv(lines: seq<string>, number: string -> Number, m: Machine, t: Tick)
    requires Inv(lines, number, m) && m.state == GetCommand && m.i < |lines|
    requires !IsJump(Classify(lines[m.i])) && !IsInstant(Classify(lines[m.i]))
    ensures Inv(lines, number, WaitingStep(lines, number, m, lines[m.i], Classify(lines[m.i]), t))
  {
    hide Classify, ParseAsk, After, Between, EndifFrom, AskCommand, IfCommand;
    Halt(lines, number, m, m.i);
    match Classify(lines[m.i])
    case Pause => BeginWait(lines, number, m, WaitEnter);
    case Ask => AskKeepsInv(lines, number, m, t.now);
    case Run => if |lines[m.i]| > 6 { BeginWait(lines, number, m, RunTask); }
    case WaitForResult => BeginWait(lines, number, m, WaitToolResult);
    case FileIn =>
      BeginWait(lines, number, m, WaitAsk);
      BeginWait(lines, number, m, ExecuteCommand);
    case If => IfKeepsInv(lines, number, m);
    case Plain => BeginWait(lines, number, m, ExecuteCommand);
  }

  lemma {:induction false} GetCommandKeepsInv(lines: seq<string>, number: string -> Number, m: Machine, t: Tick)
    requires Inv(lines, number, m) && m.state == GetCommand
    ensures Inv(lines, number, GetCommandStep(lines, number, m, t))
  {
    hide Control, Classify, JumpStep, WaitingStep;
    InvBounds(lines, number, m);
    Halt(lines, number, m, m.i);
    if m.i < |lines| {
      if IsJump(Classify(lines[m.i])) {
        JumpKeepsInv(lines, number, m, Classify(lines[m.i]));
      } else if IsInstant(Classify(lines[m.i])) {
        Jump(lines, number, m, m.i + 1);
        BeginWait(lines, number, m, GetCommand);
      } else {
        WaitingKeepsInv(lines, number, m, t);
      }
    }
  }

  lemma {:induction false} FollowsInside(lines: seq<string>, i: nat)
    requires IfFollows(lines, i)
    ensures i + 1 < |lines|
  {
  }

  lemma {:induction false} CallPastIfKeepsInv(lines: seq<string>, number: string -> Number, m: Machine, name: string)
    requires Inv(lines, number, m) && m.state == WaitAsk && IfFollows(lines, m.i)
    ensures Inv(lines, number, CallAfterAsk(lines, m.(deadline := None), name))
    ensures CallAfterAsk(lines, m.(deadline := None), name).state != WaitAsk
  {
    hide Control, IfFollows, EndifFrom, Call, Resumed, Stop;
    FollowsInside(lines, m.i);
    ScansStayInside(lines, m.i + 2, 0, ElseMark);
    var endif := EndifFrom(lines, m.i + 2, 0);
    if endif < |lines| {
      CallKeepsInv(lines, number, m, name, endif + 1);
    } else {
      StopKeepsInv(lines, number, m, NoEndif);
    }
  }

  lemma {:induction false} CallAfterAskKeepsInv(lines: seq<string>, number: string -> Number, m: Machine, name: string)
    requires Inv(lines, number, m) && m.state == WaitAsk
    ensures Inv(lines, number, CallAfterAsk(lines, m.(deadline := None), name))
    ensures CallAfterAsk(lines, m.(deadline := None), name).state != WaitAsk
  {
    if IfFollows(lines, m.i) {
      CallPastIfKeepsInv(lines, number, m, name);
    } else {
      assert m.i + 1 <= |lines|;
      hide Control, IfFollows, Call, Resumed;
      CallKeepsInv(lines, number, m, name, m.i + 1);
    }
  }

  lemma {:induction false} TimedOutKeepsInv(lines: seq<string>, number: string -> Number, m: Machine, t: Tick)
    requires Inv(lines, number, m) && m.state == WaitAsk
    ensures var next := AskTimedOut(lines, number, m, t);
            Inv(lines, number, next) && (next.state == WaitAsk ==> next == m)
  {
    Halt(lines, number, m, m.i);
    hide Control, ParseAsk, CallAfterAsk;
    var header := ParseAsk(lines[m.i], number);
    CallAfterAskKeepsInv(lines, number, m.(keyboard := m.savedKeyboard), if header.Some? then header.value.name else "");
  }

  lemma {:induction false} IfIgnores(m: Machine, lines: seq<string>, line: string)
    ensures IfCommand(m, lines, line).(deadline := None) == IfCommand(m.(state := GetCommand, deadline := None), lines, line)
  {
  }

  lemma {:induction false} AnswerForIfKeepsInv(lines: seq<string>, number: string -> Number, m: Machine, typed: string)
    requires Inv(lines, number, m) && m.state == WaitAsk && IfFollows(lines, m.i)
    ensures var next := AnswerForIf(lines, m, typed);
            next.state != WaitAsk && Inv(lines, number, next.(deadline := None))
  {
    hide Control, StartsWith, Classify, IfCommand, QuotedAnswer;
    IfLine(lines[m.i + 1]);
    Jump(lines, number, m, m.i + 1);
    var m1 := m.(i := m.i + 1);
    IfKeepsInv(lines, number, m1.(state := GetCommand, deadline := None));
    IfIgnores(m1, lines, lines[m.i + 1]);
  }

  lemma {:induction false} AnsweredKeepsInv(lines: seq<string>, number: string -> Number, m: Machine, t: Tick)
    requires Inv(lines, number, m) && m.state == WaitAsk
    ensures var next := AskAnswered(lines, m, t);
            && (next.state == WaitAsk ==> next == m)
            && (next.state != WaitAsk ==> Inv(lines, number, next.(deadline := None)))
  {
    hide IfFollows, Classify, ParseAsk, EndifFrom, AnswerForIf;
    if IfFollows(lines, m.i) {
      AnswerForIfKeepsInv(lines, number, m.(keyboard := m.savedKeyboard), t.typed);
    }
  }

  lemma {:induction false} WaitAskKeepsInv(lines: seq<string>, number: string -> Number, m: Machine, t: Tick)
    requires Inv(lines, number, m) && m.state == WaitAsk
    ensures Inv(lines, number, WaitAskStep(lines, number, m, t))
  {
    hide Control, AskTimedOut, AskAnswered;
    TimedOutKeepsInv(lines, number, m, t);
    AnsweredKeepsInv(lines, number, m, t);
  }

  lemma {:induction false} AdvanceKeepsInv(lines: seq<string>, number: string -> Number, m: Machine, t: Tick)
    requires Inv(lines, number, m)
    ensures Inv(lines, number, AdvanceStep(lines, number, m, t))
  {
    hide StartsWith, Classify, ParseAsk, EndifFrom, GetCommandStep, WaitAskStep, IfAnswered;
    match m.state
    case GetCommand => GetCommandKeepsInv(lines, number, m, t);
    case WaitAsk => WaitAskKeepsInv(lines, number, m, t);
    case WaitIfResponse => IfAnsweredKeepsInv(lines, number, m, t);
    case _ =>
  }

  lemma {:induction false} IfAnsweredKeepsInv(lines: seq<string>, number: string -> Number, m: Machine, t: Tick)
    requires Inv(lines, number, m) && m.state == WaitIfResponse
    ensures Inv(lines, number, IfAnswered(lines, m, t))
  {
    hide Control, BranchFrom;
    InvBounds(lines, number, m);
    var wanted := if t.answer == -1 then ElseMark else MaybeMark;
    ScansStayInside(lines, m.i + 1, 0, wanted);
    WaitsNoDeadline(lines, number, m);
    Jump(lines, number, m, m.i + 1);
    Jump(lines, number, m, BranchFrom(lines, m.i + 1, 0, wanted));
  }

  lemma {:induction false} WaitsNoDeadline(lines: seq<string>, number: string -> Number, m: Machine)
    requires Inv(lines, number, m) && m.state != WaitAsk && m.state != Done
    ensures m.deadline == None
  {
    hide LedTo, TimedAsk, EndifFrom;
  }

  lemma {:induction false} DriveKeepsInv(lines: seq<string>, number: string -> Number, m: Machine, t: Tick)
    requires Inv(lines, number, m)
    ensures Inv(lines, number, DriveStep(lines, number, m, t))
  {
    hide Control, AdvanceStep;
    InvBounds(lines, number, m);
    if m.state == WaitToolResult || m.state == RunTask {
      WaitsNoDeadline(lines, number, m);
      Halt(lines, number, m, m.i);
      Jump(lines, number, m, m.i + 1);
    } else {
      AdvanceKeepsInv(lines, number, m, t);
    }
  }

  lemma {:induction false} StepKeepsInv(lines: seq<string>, number: string -> Number, m: Machine, t: Tick)
    requires Inv(lines, number, m)
    ensures Inv(lines, number, Step(lines, number, m, t))
  {
    DriveKeepsInv(lines, number, m, t);
    var next := DriveStep(lines, number, m, t);
    hide DriveStep, Control;
    HaltHere(lines, number, next);
  }

  /** The machine after some ticks. */
  ghost function RunFrom(lines: seq<string>, number: string -> Number, m: Machine, ticks: seq<Tick>): Machine
    requires Inv(lines, number, m)
    ensures Inv(lines, number, RunFrom(lines, number, m, ticks))
    decreases |ticks|
  {
    if ticks == [] then m
    else
      StepKeepsInv(lines, number, m, ticks[0]);
      RunFrom(lines, number, Step(lines, number, m, ticks[0]), ticks[1..])
  }

  lemma {:induction false} StartIsFine(lines: seq<string>, number: string -> Number, keyboard: bool, tts: bool, echo: bool)
    ensures Inv(lines, number, Start(keyboard, tts, echo))
  {
  }

  /** In every run of every script, a time limit runs only while the machine waits on an [ASK] line that
      reads well and has that limit, so reading the line again when the limit passes never fails. */
  lemma {:induction false} DeadlineOnlyWhileAsking(lines: seq<string>, number: string -> Number, keyboard: bool, tts: bool, echo: bool,
      ticks: seq<Tick>)
    ensures Inv(lines, number, Start(keyboard, tts, echo))
    ensures var m := RunFrom(lines, number, Start(keyboard, tts, echo), ticks);
            m.deadline.Some? && m.state != Done ==>
              m.state == WaitAsk && m.i < |lines| && TimedAsk(lines[m.i], number)
  {
    StartIsFine(lines, number, keyboard, tts, echo);
  }

  predicate NeedsAHuman(s: State) { s == WaitEnter || s == WaitAsk }

  /** Ticks that all leave the machine waiting for the user. */
  ghost predicate StaysWaiting(lines: seq<string>, number: string -> Number, m: Machine, ticks: seq<Tick>)
    requires Inv(lines, number, m)
    decreases |ticks|
  {
    ticks == [] ||
    (StepKeepsInv(lines, number, m, ticks[0]);
     var next := Step(lines, number, m, ticks[0]);
     NeedsAHuman(next.state) && StaysWaiting(lines, number, next, ticks[1..]))
  }

  lemma {:induction false} WaitingKeepsSaved(lines: seq<string>, number: string -> Number, m: Machine, ticks: seq<Tick>)
    requires Inv(lines, number, m) && NeedsAHuman(m.state) && m.keyboard
    requires StaysWaiting(lines, number, m, ticks)
    ensures var end := RunFrom(lines, number, m, ticks);
            NeedsAHuman(end.state) && end.keyboard && end.savedKeyboard == m.savedKeyboard
    decreases |ticks|
  {
    if ticks != [] {
      var next := Step(lines, number, m, ticks[0]);
      StepKeepsInv(lines, number, m, ticks[0]);
      WaitStep(lines, number, m, ticks[0]);
      hide Step, Inv;
      WaitingKeepsSaved(lines, number, next, ticks[1..]);
    }
  }

  lemma {:induction false} CallKeepsKeyboard(m: Machine, lines: seq<string>, name: string, resume: nat)
    ensures Call(m, lines, name, resume).keyboard == m.keyboard
    ensures Call(m, lines, name, resume).state == m.state || Call(m, lines, name, resume).state == Done
  {
  }

  lemma {:induction false} CallAfterAskRestores(lines: seq<string>, m: Machine, name: string)
    ensures CallAfterAsk(lines, m, name).keyboard == m.keyboard
    ensures CallAfterAsk(lines, m, name).state == Done || CallAfterAsk(lines, m, name).state == GetCommand
  {
    hide IfFollows, EndifFrom, Call;
    CallKeepsKeyboard(m, lines, name, m.i + 1);
    CallKeepsKeyboard(m, lines, name, EndifFrom(lines, m.i + 2, 0) + 1);
  }

  lemma {:induction false} TimedOutRestores(lines: seq<string>, number: string -> Number, m: Machine, t: Tick)
    requires m.state == WaitAsk && m.i < |lines|
    ensures var next := AskTimedOut(lines, number, m, t);
            if next.state == WaitAsk then next == m
            else (next.state == Done || next.state == GetCommand) && next.keyboard == m.savedKeyboard
  {
    hide ParseAsk, CallAfterAsk;
    var header := ParseAsk(lines[m.i], number);
    CallAfterAskRestores(lines, m.(deadline := None, keyboard := m.savedKeyboard), if header.Some? then header.value.name else "");
  }

  lemma {:induction false} AnsweredRestores(lines: seq<string>, m: Machine, t: Tick)
    requires m.state == WaitAsk
    ensures var next := AskAnswered(lines, m, t);
            if next.state == WaitAsk then next == m
            else next.state != WaitEnter && next.keyboard == m.savedKeyboard
  {
    hide StartsWith, EndifFrom, QuotedAnswer;
  }

  /** One tick of a wait for the user: it goes on unchanged, or it ends with the saved flag put back
      (unless the user asked to leave the script altogether). */
  lemma {:induction false} WaitStep(lines: seq<string>, number: string -> Number, m: Machine, t: Tick)
    requires Inv(lines, number, m) && NeedsAHuman(m.state)
    ensures var next := Step(lines, number, m, t);
            if NeedsAHuman(next.state) then next == m
            else t.exitRequested || next.keyboard == m.savedKeyboard
  {
    assert m.i < |lines|;
    hide AskTimedOut, AskAnswered, Control;
    if m.state == WaitAsk {
      TimedOutRestores(lines, number, m, t);
      AnsweredRestores(lines, m, t);
    }
  }

  lemma {:induction false} JumpsAreNoWaits(lines: seq<string>, m: Machine, c: Command)
    requires m.state == GetCommand && IsJump(c)
    ensures !NeedsAHuman(JumpStep(lines, m, c).state)
  {
  }

  lemma {:induction false} WaitingBegins(lines: seq<string>, number: string -> Number, m: Machine, line: string,
      c: Command, t: Tick)
    requires m.state == GetCommand && !IsJump(c) && !IsInstant(c)
    ensures var next := WaitingStep(lines, number, m, line, c, t);
            NeedsAHuman(next.state) ==> next.keyboard && next.savedKeyboard == m.keyboard
  {
    hide ParseAsk, EndifFrom, After, Between;
  }

  lemma {:induction false} WaitBegins(lines: seq<string>, number: string -> Number, m: Machine, t: Tick)
    requires m.state == GetCommand && NeedsAHuman(Step(lines, number, m, t).state)
    ensures Step(lines, number, m, t).keyboard && Step(lines, number, m, t).savedKeyboard == m.keyboard
  {
    if m.i < |lines| {
      hide Classify, JumpStep, WaitingStep;
      var c := Classify(lines[m.i]);
      if IsJump(c) {
        JumpsAreNoWaits(lines, m, c);
      } else if !IsInstant(c) {
        WaitingBegins(lines, number, m, lines[m.i], c, t);
      }
    }
  }

  /** Whatever a script had switched the keyboard to before a line that waits for the user, an answer, an
      Enter or a time-out that ends the wait puts it back to exactly that. */
  lemma {:induction false} KeyboardIsRestored(lines: seq<string>, number: string -> Number, m: Machine, first: Tick, ticks: seq<Tick>,
      last: Tick)
    requires Inv(lines, number, m) && m.state == GetCommand
    requires NeedsAHuman(Step(lines, number, m, first).state)
    requires Inv(lines, number, Step(lines, number, m, first))
    requires StaysWaiting(lines, number, Step(lines, number, m, first), ticks)
    ensures var end := RunFrom(lines, number, Step(lines, number, m, first), ticks);
            var after := Step(lines, number, end, last);
            && end.keyboard
            && (!NeedsAHuman(after.state) && !last.exitRequested ==> after.keyboard == m.keyboard)
  {
    var waiting := Step(lines, number, m, first);
    WaitBegins(lines, number, m, first);
    hide Step, Inv;
    WaitingKeepsSaved(lines, number, waiting, ticks);
    WaitStep(lines, number, RunFrom(lines, number, waiting, ticks), last);
  }
}
