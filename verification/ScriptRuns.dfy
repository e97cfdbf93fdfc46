/** Tasks that run other tasks with [RUN:name] (source/tools.cpp): a stack of script machines of which only
    the innermost moves. */
module ScriptRuns {
  import opened Options
  import opened Sequences
  import opened ScriptLines
  import opened ScriptMachine
  import opened ScriptFlow

  const MAX_RUN_DEPTH: nat := 4

  datatype Frame = Frame(lines: seq<string>, m: Machine)

  /** What a task with this name consists of, if there is one. */
  type Library = string -> Option<seq<string>>

  function RunName(line: string): string {
    Between(line, 5)
  }

  function Top(frames: seq<Frame>): Frame
    requires frames != []
  {
    frames[|frames| - 1]
  }

  function Below(frames: seq<Frame>): seq<Frame>
    requires frames != []
  {
    frames[..|frames| - 1]
  }

  function Move(number: string -> Number, f: Frame, t: Tick): Frame
    requires f.m.state == WaitAsk ==> f.m.i < |f.lines|
  {
    f.(m := Step(f.lines, number, f.m, t))
  }

  /** Starts the named task on top, with its own switches all on, or tells the innermost script why it cannot. */
  function BeginRun(library: Library, number: string -> Number, frames: seq<Frame>, t: Tick): seq<Frame>
    requires frames != [] && Top(frames).m.state == RunTask && Top(frames).m.i < |Top(frames).lines|
  {
    var f := Top(frames);
    match library(RunName(f.lines[f.m.i]))
    case None => Below(frames) + [Move(number, f, t.(run := NotKnown))]
    case Some(lines) =>
      if |frames| >= MAX_RUN_DEPTH then Below(frames) + [Move(number, f, t.(run := NestedTooDeep))]
      else frames + [Frame(lines, Start(true, true, true))]
  }

  /** The innermost script is over: the one that ran it goes on behind its [RUN] line. */
  function EndRun(number: string -> Number, frames: seq<Frame>, t: Tick): seq<Frame>
    requires |frames| > 1 && Top(Below(frames)).m.state == RunTask
  {
    Below(Below(frames)) + [Move(number, Top(Below(frames)), t.(run := Finished))]
  }

  ghost predicate Fits(number: string -> Number, f: Frame, n: nat) {
    Inv(f.lines, number, f.m) && |f.lines| <= n
  }

  /** Every script that runs another one waits on its [RUN] line. */
  ghost predicate GoodFrames(number: string -> Number, frames: seq<Frame>, n: nat)
    decreases |frames|
  {
    frames != [] ==>
      (&& Fits(number, Top(frames), n)
       && GoodFrames(number, Below(frames), n)
       && (|frames| > 1 ==> Top(Below(frames)).m.state == RunTask))
  }

  ghost predicate Good(number: string -> Number, frames: seq<Frame>, n: nat) {
    0 < |frames| <= MAX_RUN_DEPTH && GoodFrames(number, frames, n)
  }

  /** One tick of the innermost script. */
  ghost function Turn(library: Library, number: string -> Number, frames: seq<Frame>, t: Tick, n: nat): seq<Frame>
    requires Good(number, frames, n)
  {
    var f := Top(frames);
    if f.m.state == Done then if |frames| == 1 then frames else EndRun(number, frames, t)
    else if f.m.state == RunTask then BeginRun(library, number, frames, t)
    else Below(frames) + [Move(number, f, t)]
  }

  /** No task of the library has more than n lines. */
  ghost predicate AtMost(library: Library, n: nat) {
    forall name :: library(name).Some? ==> |library(name).value| <= n
  }

  lemma {:induction false} Replaced(frames: seq<Frame>, f: Frame)
    ensures Top(frames + [f]) == f && Below(frames + [f]) == frames
  {
    InitOfSnoc(frames, f);
  }

  lemma {:induction false} MoveFits(number: string -> Number, f: Frame, t: Tick, n: nat)
    requires Fits(number, f, n)
    ensures Fits(number, Move(number, f, t), n)
  {
    hide Step, Control;
    StepKeepsInv(f.lines, number, f.m, t);
  }

  lemma {:induction false} TopChanges(number: string -> Number, frames: seq<Frame>, f: Frame, n: nat)
    requires Good(number, frames, n) && Fits(number, f, n)
    ensures Good(number, Below(frames) + [f], n)
  {
    hide Fits;
    Replaced(Below(frames), f);
  }

  lemma {:induction false} OneMore(number: string -> Number, frames: seq<Frame>, f: Frame, n: nat)
    requires Good(number, frames, n) && Fits(number, f, n) && |frames| < MAX_RUN_DEPTH && Top(frames).m.state == RunTask
    ensures Good(number, frames + [f], n)
  {
    hide Fits;
    Replaced(frames, f);
  }

  lemma {:induction false} StartFits(number: string -> Number, lines: seq<string>, keyboard: bool, tts: bool, echo: bool, n: nat)
    requires |lines| <= n
    ensures Fits(number, Frame(lines, Start(keyboard, tts, echo)), n)
  {
    StartIsFine(lines, number, keyboard, tts, echo);
  }

  lemma {:induction false} StandsOnALine(number: string -> Number, f: Frame, n: nat)
    requires Fits(number, f, n) && f.m.state != GetCommand && f.m.state != Done
    ensures f.m.i < |f.lines|
  {
  }

  lemma {:induction false} GoodBelow(number: string -> Number, frames: seq<Frame>, n: nat)
    requires Good(number, frames, n)
    ensures Fits(number, Top(frames), n)
    ensures |frames| > 1 ==> Good(number, Below(frames), n) && Top(Below(frames)).m.state == RunTask
  {
    hide Fits;
  }

  /** [RUN] never nests more than four tasks, whatever the tasks are. */
  lemma {:induction false} TurnKeepsGood(library: Library, number: string -> Number, frames: seq<Frame>, t: Tick,
      n: nat)
    requires Good(number, frames, n) && AtMost(library, n)
    ensures Good(number, Turn(library, number, frames, t, n), n)
  {
    hide Fits, Step, Control, GoodFrames;
    var f := Top(frames);
    GoodBelow(number, frames, n);
    if f.m.state == Done {
      if |frames| > 1 {
        GoodBelow(number, Below(frames), n);
        StandsOnALine(number, Top(Below(frames)), n);
        MoveFits(number, Top(Below(frames)), t.(run := Finished), n);
        TopChanges(number, Below(frames), Move(number, Top(Below(frames)), t.(run := Finished)), n);
      }
    } else if f.m.state == RunTask {
      StandsOnALine(number, f, n);
      MoveFits(number, f, t.(run := NotKnown), n);
      MoveFits(number, f, t.(run := NestedTooDeep), n);
      TopChanges(number, frames, Move(number, f, t.(run := NotKnown)), n);
      TopChanges(number, frames, Move(number, f, t.(run := NestedTooDeep)), n);
      var lines := library(RunName(f.lines[f.m.i]));
      if lines.Some? && |frames| < MAX_RUN_DEPTH {
        StartFits(number, lines.value, true, true, true, n);
        OneMore(number, frames, Frame(lines.value, Start(true, true, true)), n);
      }
    } else {
      if f.m.state == WaitAsk { StandsOnALine(number, f, n); }
      MoveFits(number, f, t, n);
      TopChanges(number, frames, Move(number, f, t), n);
    }
  }

  // ---- How many commands can run in all ----

  /** The most lines one run of a script of at most n lines takes up. */
  function Most(n: nat): nat {
    Times(n + 1, Pow(n + 2, MAX_GOSUB_DEPTH))
  }

  /** What one line may cost that starts another task, with `levels` more levels of tasks below it. */
  function Weight(n: nat, levels: nat): nat {
    if levels == 0 then 1 else 1 + Times(Most(n), Weight(n, levels - 1))
  }

  lemma {:induction false} PowGrows(a: nat, b: nat, e: nat)
    requires a <= b
    ensures Pow(a, e) <= Pow(b, e)
  {
    if e > 0 {
      PowGrows(a, b, e - 1);
      Scale(a, b, Pow(a, e - 1));
      Scale(Pow(a, e - 1), Pow(b, e - 1), b);
    }
  }

  lemma {:induction false} TimesGrows(a: nat, b: nat, p: nat, q: nat)
    requires a <= b && p <= q
    ensures Times(a, p) <= Times(b, q)
  {
    Scale(a, b, p);
    Scale(p, q, b);
  }

  lemma {:induction false} TimesLess(a: nat, b: nat, p: nat)
    requires a + 1 <= b
    ensures Times(a, p) + p <= Times(b, p)
  {
    Scale(a + 1, b, p);
  }

  ghost function BudgetOf(number: string -> Number, f: Frame, n: nat): nat
    requires Fits(number, f, n)
  {
    InvIsInScript(f.lines, number, f.m);
    Budget(f.lines, f.m)
  }

  /** What the scripts on the stack may still take up between them. */
  ghost function Potential(number: string -> Number, frames: seq<Frame>, n: nat): nat
    requires |frames| <= MAX_RUN_DEPTH && GoodFrames(number, frames, n)
    decreases |frames|
  {
    if frames == [] then 0
    else Potential(number, Below(frames), n) + Times(BudgetOf(number, Top(frames), n), Weight(n, MAX_RUN_DEPTH - |frames|))
  }

  /** What is set aside for a task that is about to start. */
  ghost function Reserve(frames: seq<Frame>, n: nat): nat
    requires 0 < |frames| <= MAX_RUN_DEPTH
  {
    if Top(frames).m.state == RunTask && |frames| < MAX_RUN_DEPTH then Times(Most(n), Weight(n, MAX_RUN_DEPTH - |frames| - 1))
    else 0
  }

  ghost function Ahead(number: string -> Number, frames: seq<Frame>, n: nat): nat
    requires Good(number, frames, n)
  {
    Potential(number, frames, n) + Reserve(frames, n)
  }

  /** Whether a turn takes up a line. */
  ghost predicate TakesUp(number: string -> Number, frames: seq<Frame>, t: Tick, n: nat)
    requires Good(number, frames, n)
  {
    var f := Top(frames);
    && f.m.state != Done && f.m.state != RunTask
    && Dispatches(f.lines, f.m, Move(number, f, t).m)
  }

  lemma {:induction false} StartBudget(number: string -> Number, lines: seq<string>, keyboard: bool, tts: bool,
      echo: bool, n: nat)
    requires |lines| <= n
    ensures Fits(number, Frame(lines, Start(keyboard, tts, echo)), n)
    ensures BudgetOf(number, Frame(lines, Start(keyboard, tts, echo)), n) <= Most(n)
  {
    StartFits(number, lines, keyboard, tts, echo, n);
    PowGrows(|lines| + 2, n + 2, MAX_GOSUB_DEPTH);
    TimesGrows(|lines| + 1, n + 1, Pow(|lines| + 2, MAX_GOSUB_DEPTH), Pow(n + 2, MAX_GOSUB_DEPTH));
    hide Pow;
  }

  lemma {:induction false} PotentialOnTop(number: string -> Number, frames: seq<Frame>, f: Frame, n: nat)
    requires |frames| < MAX_RUN_DEPTH && GoodFrames(number, frames, n) && Fits(number, f, n)
    requires frames != [] ==> Top(frames).m.state == RunTask
    ensures GoodFrames(number, frames + [f], n)
    ensures Potential(number, frames + [f], n)
            == Potential(number, frames, n) + Times(BudgetOf(number, f, n), Weight(n, MAX_RUN_DEPTH - |frames| - 1))
  {
    hide Fits, BudgetOf, Weight, Times;
    Replaced(frames, f);
  }

  lemma {:induction false} PotentialSplits(number: string -> Number, frames: seq<Frame>, n: nat)
    requires Good(number, frames, n)
    ensures GoodFrames(number, Below(frames), n) && Fits(number, Top(frames), n)
    ensures |frames| > 1 ==> Top(Below(frames)).m.state == RunTask
    ensures Potential(number, frames, n)
            == Potential(number, Below(frames), n) + Times(BudgetOf(number, Top(frames), n), Weight(n, MAX_RUN_DEPTH - |frames|))
  {
    hide Fits, BudgetOf, Weight, Times;
  }

  /** A tick of one script spends at least what it takes up, and one more line when it is about to run a task. */
  lemma {:induction false} MoveSpends(number: string -> Number, f: Frame, t: Tick, n: nat)
    requires Fits(number, f, n)
    ensures Fits(number, Move(number, f, t), n)
    ensures BudgetOf(number, Move(number, f, t), n) + (if Dispatches(f.lines, f.m, Move(number, f, t).m) then 1 else 0)
            <= BudgetOf(number, f, n)
  {
    MoveFits(number, f, t, n);
    DispatchSpends(f.lines, number, f.m, t);
    hide Step, Control, Budget, Dispatches;
  }

  lemma {:induction false} AnswerRunsNothing(lines: seq<string>, m: Machine, t: Tick)
    requires m.state == WaitAsk
    ensures AskAnswered(lines, m, t).state != RunTask
  {
    hide StartsWith, EndifFrom, QuotedAnswer, After;
  }

  lemma {:induction false} AskRunsNothing(lines: seq<string>, number: string -> Number, m: Machine, t: Tick)
    requires m.state == WaitAsk && m.i < |lines|
    ensures WaitAskStep(lines, number, m, t).state != RunTask
  {
    hide AskTimedOut, AskAnswered;
    TimedOutRestores(lines, number, m, t);
    AnswerRunsNothing(lines, m, t);
  }

  lemma {:induction false} RunTaskIsTakenUp(number: string -> Number, f: Frame, t: Tick, n: nat)
    requires Fits(number, f, n) && f.m.state != Done && Move(number, f, t).m.state == RunTask
    ensures f.m.state != RunTask && Dispatches(f.lines, f.m, Move(number, f, t).m)
  {
    hide Control, GetCommandStep, WaitAskStep, BranchFrom;
    if f.m.state == WaitAsk {
      StandsOnALine(number, f, n);
      AskRunsNothing(f.lines, number, f.m, t);
    }
    if f.m.state == GetCommand && f.m.i >= |f.lines| { EndRunsNothing(f.lines, number, f.m, t); }
  }

  lemma {:induction false} EndRunsNothing(lines: seq<string>, number: string -> Number, m: Machine, t: Tick)
    requires m.i >= |lines|
    ensures GetCommandStep(lines, number, m, t).state == Done
  {
  }

  /** What is set aside for a task about to start is what its line weighs, less the line itself. */
  lemma {:induction false} ReserveIs(below: seq<Frame>, f: Frame, n: nat)
    requires |below| < MAX_RUN_DEPTH
    ensures Reserve(below + [f], n) == if f.m.state == RunTask then Weight(n, MAX_RUN_DEPTH - |below| - 1) - 1 else 0
    ensures Weight(n, MAX_RUN_DEPTH - |below| - 1) > 0
  {
    hide Most, Times;
    Replaced(below, f);
  }

  /** Moving the script on top: what the stack still has ahead covers what is taken up and, when a task is
      about to start, what that task may take up. */
  lemma {:induction false} MoveAhead(number: string -> Number, below: seq<Frame>, f: Frame, t: Tick, n: nat)
    requires Good(number, below + [f], n) && f.m.state != Done && GoodFrames(number, below, n) && Fits(number, f, n)
    requires below != [] ==> Top(below).m.state == RunTask
    ensures Fits(number, Move(number, f, t), n) && Good(number, below + [Move(number, f, t)], n)
    ensures Ahead(number, below + [Move(number, f, t)], n)
            + (if Dispatches(f.lines, f.m, Move(number, f, t).m) then 1 else 0)
            <= Potential(number, below + [f], n)
  {
    hide Fits, BudgetOf, Times, Step, Control, Dispatches, Potential, GoodFrames, Move, Most, Reserve, Weight;
    if f.m.state == WaitAsk { StandsOnALine(number, f, n); }
    var moved := Move(number, f, t);
    MoveSpends(number, f, t, n);
    PotentialOnTop(number, below, f, n);
    PotentialOnTop(number, below, moved, n);
    ReserveIs(below, moved, n);
    var levels := MAX_RUN_DEPTH - |below| - 1;
    var w, b, after := Weight(n, levels), BudgetOf(number, f, n), BudgetOf(number, moved, n);
    if moved.m.state == RunTask { RunTaskIsTakenUp(number, f, t, n); }
    if Dispatches(f.lines, f.m, moved.m) {
      TimesLess(after, b, w);
    } else {
      TimesGrows(after, b, w, w);
    }
  }

  lemma {:induction false} TopAndBelow(frames: seq<Frame>)
    requires frames != []
    ensures Below(frames) + [Top(frames)] == frames
  {
    SnocSplit(frames);
  }

  lemma {:induction false} MoveTurn(number: string -> Number, frames: seq<Frame>, t: Tick, n: nat)
    requires Good(number, frames, n) && Top(frames).m.state != Done && Fits(number, Top(frames), n)
    ensures Good(number, Below(frames) + [Move(number, Top(frames), t)], n)
    ensures Ahead(number, Below(frames) + [Move(number, Top(frames), t)], n)
            + (if Dispatches(Top(frames).lines, Top(frames).m, Move(number, Top(frames), t).m) then 1 else 0)
            <= Potential(number, frames, n) <= Ahead(number, frames, n)
  {
    hide Fits, Step, Control, Dispatches, Potential, GoodFrames, Move, Reserve;
    TopAndBelow(frames);
    PotentialSplits(number, frames, n);
    MoveAhead(number, Below(frames), Top(frames), t, n);
  }

  lemma {:induction false} PushTurn(number: string -> Number, frames: seq<Frame>, lines: seq<string>, keyboard: bool,
      tts: bool, echo: bool, n: nat)
    requires Good(number, frames, n) && Top(frames).m.state == RunTask && |frames| < MAX_RUN_DEPTH && |lines| <= n
    ensures Good(number, frames + [Frame(lines, Start(keyboard, tts, echo))], n)
    ensures Ahead(number, frames + [Frame(lines, Start(keyboard, tts, echo))], n) <= Ahead(number, frames, n)
  {
    hide Fits, BudgetOf, Weight, Times, Most, Potential, GoodFrames;
    var child := Frame(lines, Start(keyboard, tts, echo));
    StartBudget(number, lines, keyboard, tts, echo, n);
    PotentialOnTop(number, frames, child, n);
    Replaced(frames, child);
    var w := Weight(n, MAX_RUN_DEPTH - |frames| - 1);
    TimesGrows(BudgetOf(number, child, n), Most(n), w, w);
  }

  lemma {:induction false} PopTurn(number: string -> Number, frames: seq<Frame>, t: Tick, n: nat)
    requires Good(number, frames, n) && |frames| > 1 && Top(Below(frames)).m.state == RunTask
    ensures Good(number, EndRun(number, frames, t), n)
    ensures Ahead(number, EndRun(number, frames, t), n) <= Ahead(number, frames, n)
  {
    hide Fits, BudgetOf, Weight, Times, Most, Potential, GoodFrames, Move, Reserve;
    PotentialSplits(number, frames, n);
    GoodBelow(number, frames, n);
    GoodBelow(number, Below(frames), n);
    StandsOnALine(number, Top(Below(frames)), n);
    MoveTurn(number, Below(frames), t.(run := Finished), n);
  }

  lemma {:induction false} TurnSpends(library: Library, number: string -> Number, frames: seq<Frame>, t: Tick, n: nat)
    requires Good(number, frames, n) && AtMost(library, n)
    ensures var next := Turn(library, number, frames, t, n);
            && Good(number, next, n)
            && Ahead(number, next, n) + (if TakesUp(number, frames, t, n) then 1 else 0) <= Ahead(number, frames, n)
  {
    hide Fits, Dispatches, Potential, GoodFrames, Move, Reserve, Ahead, EndRun;
    var f := Top(frames);
    GoodBelow(number, frames, n);
    if f.m.state == Done {
      if |frames| > 1 { PopTurn(number, frames, t, n); }
    } else if f.m.state == RunTask {
      StandsOnALine(number, f, n);
      MoveTurn(number, frames, t.(run := NotKnown), n);
      MoveTurn(number, frames, t.(run := NestedTooDeep), n);
      var lines := library(RunName(f.lines[f.m.i]));
      if lines.Some? && |frames| < MAX_RUN_DEPTH {
        PushTurn(number, frames, lines.value, true, true, true, n);
      }
    } else {
      MoveTurn(number, frames, t, n);
    }
  }

  /** How many lines a run of the outermost task takes up, in it and in all tasks inside it. */
  ghost function TakenUpIn(library: Library, number: string -> Number, frames: seq<Frame>, ticks: seq<Tick>,
      n: nat): nat
    requires Good(number, frames, n) && AtMost(library, n)
    decreases |ticks|
  {
    if ticks == [] then 0
    else
      TurnKeepsGood(library, number, frames, ticks[0], n);
      (if TakesUp(number, frames, ticks[0], n) then 1 else 0)
      + TakenUpIn(library, number, Turn(library, number, frames, ticks[0], n), ticks[1..], n)
  }

  lemma {:induction false} RunSpends(library: Library, number: string -> Number, frames: seq<Frame>,
      ticks: seq<Tick>, n: nat)
    requires Good(number, frames, n) && AtMost(library, n)
    ensures TakenUpIn(library, number, frames, ticks, n) <= Ahead(number, frames, n)
    decreases |ticks|
  {
    hide Good, AtMost, Turn, TakesUp, Ahead;
    if ticks != [] {
      TurnSpends(library, number, frames, ticks[0], n);
      RunSpends(library, number, Turn(library, number, frames, ticks[0], n), ticks[1..], n);
    }
  }

  /** Whatever tasks of at most n lines there are, and however they run one another, with R = (n + 1) *
      (n + 2)^16 a run takes up at most R * (1 + R * (1 + R * (1 + R))) lines. */
  lemma {:induction false} EveryNestOfRunsIsBounded(library: Library, number: string -> Number, lines: seq<string>,
                                                    keyboard: bool, tts: bool, echo: bool, ticks: seq<Tick>, n: nat)
    requires AtMost(library, n) && |lines| <= n
    ensures Good(number, [Frame(lines, Start(keyboard, tts, echo))], n)
    ensures var most := (n + 1) * Pow(n + 2, MAX_GOSUB_DEPTH);
            TakenUpIn(library, number, [Frame(lines, Start(keyboard, tts, echo))], ticks, n)
            <= most * (1 + most * (1 + most * (1 + most)))
  {
    hide Fits, BudgetOf, Pow, Good, AtMost, Weight, Ahead, Most;
    var f := Frame(lines, Start(keyboard, tts, echo));
    StartBudget(number, lines, keyboard, tts, echo, n);
    AheadOfOne(number, f, n);
    RunSpends(library, number, [f], ticks, n);
    TimesGrows(BudgetOf(number, f, n), Most(n), Weight(n, 3), Weight(n, 3));
    WeightIs(n);
    MostIs(n);
  }

  lemma {:induction false} MostIs(n: nat)
    ensures Most(n) == (n + 1) * Pow(n + 2, MAX_GOSUB_DEPTH)
  {
    hide Pow;
  }

  lemma {:induction false} AheadOfOne(number: string -> Number, f: Frame, n: nat)
    requires Fits(number, f, n) && f.m.state == GetCommand
    ensures Good(number, [f], n) && Ahead(number, [f], n) == Times(BudgetOf(number, f, n), Weight(n, 3))
  {
    hide Fits, BudgetOf, Potential, Weight, Times;
    var none: seq<Frame> := [];
    NothingConcat([f]);
    PotentialOnTop(number, none, f, n);
    NoPotential(number, n);
  }

  lemma {:induction false} NoPotential(number: string -> Number, n: nat)
    ensures Potential(number, [], n) == 0
  {
  }

  lemma {:induction false} WeightIs(n: nat)
    ensures var most := Most(n); Weight(n, 3) == 1 + most * (1 + most * (1 + most))
  {
    hide Most;
    assert Weight(n, 1) == 1 + Most(n);
    assert Weight(n, 2) == 1 + Times(Most(n), Weight(n, 1));
  }

  // ---- Which task is run ----

  /** A [RUN:name] line starts the task of that name from its first line, with no call open and all switches on,
      below the depth of four; for a name without a task, and at that depth, the script stops with an error. */
  lemma {:induction false} NamedTaskRuns(library: Library, number: string -> Number, frames: seq<Frame>, t: Tick, n: nat,
      name: string)
    requires Good(number, frames, n) && Top(frames).m.state == RunTask && !t.exitRequested
    requires Top(frames).m.i < |Top(frames).lines| && Top(frames).lines[Top(frames).m.i] == "[RUN:" + (name + "]")
    ensures var next, m := Turn(library, number, frames, t, n), Top(frames).m;
            if library(name).Some? && |frames| < 4 then
              && next[..|next| - 1] == frames && Top(next).lines == library(name).value
              && Top(next).m.state == GetCommand && Top(next).m.i == 0 && Top(next).m.stack == []
              && Top(next).m.keyboard && Top(next).m.tts && Top(next).m.echo
            else
              && next[..|next| - 1] == frames[..|frames| - 1] && Top(next).m.state == Done
              && Top(next).m.shown == m.shown + [ScriptError(if library(name).None? then UnknownTask else RunTooDeep)]
  {
    hide AdvanceStep, GoodFrames;
    var line := "[RUN:" + (name + "]");
    assert line[5..|line| - 1] == name;
    InitOfSnoc(frames, Frame([], Start(true, true, true)));
  }
}
