/** The way through a script without the waits: which line comes after which, and the proof that the
    machine of `ScriptMachine` takes exactly that way. */
module ScriptWalk {
  import opened Options
  import opened Sequences
  import opened ScriptLines
  import opened ScriptMachine
  import opened ScriptFlow

  datatype Ending = EndOfScript | EndCommand | Failed(reason: Reason)

  datatype Next = Go(i: nat, stack: seq<nat>) | Halt(ending: Ending)

  /** What a line that asks something of the outside gets: the model's answer to a question, whether the time
      limit of an [ASK] passed before anything was entered, and how a task that it runs ends. */
  datatype Reply = Reply(answer: int, late: bool, run: RunOutcome)

  predicate Consumes(c: Command) { c == If || c == Ask || c == Run }

  function CallTo(lines: seq<string>, name: string, resume: nat, stack: seq<nat>): Next {
    var sub := SubFrom(lines, 0, name);
    if sub >= |lines| then Halt(Failed(NoSuchSub(name)))
    else if |stack| >= MAX_GOSUB_DEPTH then Halt(Failed(TooDeep))
    else Go(sub + 1, stack + [resume])
  }

  /** A passed limit ends the script or calls the sub named for it, to go on behind the [ASK] and the [IF]
      block right behind that. */
  function LateNext(lines: seq<string>, name: string, i: nat, stack: seq<nat>): Next {
    if name == "" then Halt(EndCommand)
    else if IfFollows(lines, i) then
      var endif := EndifFrom(lines, i + 2, 0);
      if endif >= |lines| then Halt(Failed(NoEndif)) else CallTo(lines, name, endif + 1, stack)
    else CallTo(lines, name, i + 1, stack)
  }

  function AskNext(lines: seq<string>, number: string -> Number, i: nat, stack: seq<nat>, late: bool): Next
    requires i < |lines|
  {
    match ParseAsk(lines[i], number)
    case None => Halt(Failed(BadAsk))
    case Some(header) =>
      if header.limit.Some? && late then LateNext(lines, header.name, i, stack) else Go(i + 1, stack)
  }

  function RunNext(line: string, i: nat, stack: seq<nat>, run: RunOutcome): Next {
    if |line| <= 6 then Halt(Failed(EmptyRun))
    else match run
      case NotKnown => Halt(Failed(UnknownTask))
      case NestedTooDeep => Halt(Failed(RunTooDeep))
      case Finished => Go(i + 1, stack)
  }

  function IfNext(lines: seq<string>, i: nat, stack: seq<nat>, answer: int): Next {
    if EndifFrom(lines, i + 1, 0) >= |lines| then Halt(Failed(NoEndif))
    else if answer == 1 then Go(i + 1, stack)
    else Go(BranchFrom(lines, i + 1, 0, if answer == -1 then ElseMark else MaybeMark), stack)
  }

  function JumpNext(lines: seq<string>, i: nat, stack: seq<nat>, c: Command): Next
    requires IsJump(c)
  {
    match c
    case End => Halt(EndCommand)
    case Gosub(name) => CallTo(lines, name, i + 1, stack)
    case Sub =>
      var k := EndsubFrom(lines, i + 1);
      if stack != [] then Halt(Failed(SubInsideSub))
      else if k >= |lines| then Halt(Failed(NoEndsub)) else Go(k + 1, stack)
    case Return =>
      if stack == [] then Halt(Failed(NothingToReturn)) else Go(stack[|stack| - 1], stack[..|stack| - 1])
    case SkipToEndif =>
      var k := EndifFrom(lines, i + 1, 0);
      if k >= |lines| then Halt(Failed(NoEndif)) else Go(k, stack)
    case Endif => Go(i + 1, stack)
  }

  /** Where the line at `i` leads once its wait, if it has one, is over. */
  function NextOf(lines: seq<string>, number: string -> Number, i: nat, stack: seq<nat>, reply: Reply): Next
    requires i < |lines|
  {
    var c := Classify(lines[i]);
    if IsJump(c) then JumpNext(lines, i, stack, c)
    else if c == If then IfNext(lines, i, stack, reply.answer)
    else if c == Ask then AskNext(lines, number, i, stack, reply.late)
    else if c == Run then RunNext(lines[i], i, stack, reply.run)
    else Go(i + 1, stack)
  }

  // ---- The way ends ----

  /** The way goes on later in the same call, or opens a call that will go on later, or returns. */
  ghost predicate GoesOn(n: nat, i: nat, stack: seq<nat>, next: Next) {
    next.Go? ==>
      && next.i <= n
      && (|| (next.stack == stack && i < next.i)
          || (|stack| < MAX_GOSUB_DEPTH && exists resume :: i < resume <= n && next.stack == stack + [resume])
          || (stack != [] && next == Go(stack[|stack| - 1], stack[..|stack| - 1])))
  }

  lemma {:induction false} CallGoesOn(lines: seq<string>, i: nat, name: string, resume: nat, stack: seq<nat>)
    requires i < resume <= |lines|
    ensures GoesOn(|lines|, i, stack, CallTo(lines, name, resume, stack))
  {
    hide SubFrom;
    SubsStayInside(lines, 0, name);
  }

  lemma {:induction false} BranchIsLater(lines: seq<string>, k: nat, wanted: Mark)
    requires k <= |lines| && (wanted == ElseMark || wanted == MaybeMark) && EndifFrom(lines, k, 0) < |lines|
    ensures k <= BranchFrom(lines, k, 0, wanted) <= |lines|
  {
    hide EndifFrom, BranchFrom;
    BranchLandsInBlock(lines, k, 0, wanted);
  }

  lemma {:induction false} JumpGoesOn(lines: seq<string>, i: nat, stack: seq<nat>, c: Command)
    requires i < |lines| && IsJump(c) && InScript(|lines|, i, stack)
    ensures GoesOn(|lines|, i, stack, JumpNext(lines, i, stack, c))
  {
    hide CallTo, EndifFrom, EndsubFrom;
    match c
    case Gosub(name) => CallGoesOn(lines, i, name, i + 1, stack);
    case Sub => SubsStayInside(lines, i + 1, "");
    case SkipToEndif => ScansStayInside(lines, i + 1, 0, ElseMark);
    case _ =>
  }

  lemma {:induction false} LateGoesOn(lines: seq<string>, name: string, i: nat, stack: seq<nat>)
    requires i < |lines|
    ensures GoesOn(|lines|, i, stack, LateNext(lines, name, i, stack))
  {
    hide CallTo, EndifFrom, StartsWith;
    CallGoesOn(lines, i, name, i + 1, stack);
    if IfFollows(lines, i) {
      ScansStayInside(lines, i + 2, 0, ElseMark);
      if EndifFrom(lines, i + 2, 0) < |lines| { CallGoesOn(lines, i, name, EndifFrom(lines, i + 2, 0) + 1, stack); }
    }
  }

  lemma {:induction false} IfGoesOn(lines: seq<string>, i: nat, stack: seq<nat>, answer: int)
    requires i < |lines|
    ensures GoesOn(|lines|, i, stack, IfNext(lines, i, stack, answer))
  {
    hide EndifFrom, BranchFrom;
    if EndifFrom(lines, i + 1, 0) < |lines| { BranchIsLater(lines, i + 1, if answer == -1 then ElseMark else MaybeMark); }
  }

  lemma {:induction false} NextGoesOn(lines: seq<string>, number: string -> Number, i: nat, stack: seq<nat>,
      reply: Reply)
    requires InScript(|lines|, i, stack) && i < |lines|
    ensures GoesOn(|lines|, i, stack, NextOf(lines, number, i, stack, reply))
  {
    hide Classify, ParseAsk, JumpNext, IfNext, LateNext, InScript;
    var c := Classify(lines[i]);
    if IsJump(c) {
      JumpGoesOn(lines, i, stack, c);
    } else if c == If {
      IfGoesOn(lines, i, stack, reply.answer);
    } else if c == Ask && ParseAsk(lines[i], number).Some? {
      LateGoesOn(lines, ParseAsk(lines[i], number).value.name, i, stack);
    }
  }

  lemma {:induction false} NextFalls(lines: seq<string>, number: string -> Number, i: nat, stack: seq<nat>,
      reply: Reply)
    requires InScript(|lines|, i, stack) && i < |lines|
    ensures var next := NextOf(lines, number, i, stack, reply);
            next.Go? ==>
              (InScript(|lines|, next.i, next.stack)
               && PlaceRank(|lines|, next.i, next.stack) < PlaceRank(|lines|, i, stack))
  {
    hide NextOf, Rank;
    NextGoesOn(lines, number, i, stack, reply);
    var next := NextOf(lines, number, i, stack, reply);
    if next.Go? {
      if next.stack == stack && i < next.i {
        RankJump(|lines|, i, next.i, stack, DIGITS);
      } else if |stack| < MAX_GOSUB_DEPTH && exists resume :: i < resume <= |lines| && next.stack == stack + [resume] {
        var resume :| i < resume <= |lines| && next.stack == stack + [resume];
        RankCall(|lines|, i, resume, next.i, stack, DIGITS);
      } else {
        SnocSplit(stack);
        RankReturn(|lines|, i, next.i, next.stack, DIGITS);
      }
    }
  }

  /** Every line taken up, in order, and why the script ended. */
  datatype Walk = Walk(all: seq<string>, ending: Ending)

  function NextPos(lines: seq<string>, i: nat, pos: nat): nat
    requires i < |lines|
  {
    if Consumes(Classify(lines[i])) then pos + 1 else pos
  }

  /** The walk from a place, with the replies from `pos` on. */
  ghost function WalkFrom(lines: seq<string>, number: string -> Number, i: nat, stack: seq<nat>,
                          replies: nat -> Reply, pos: nat): Walk
    requires InScript(|lines|, i, stack)
    ensures i < |lines| ==> WalkFrom(lines, number, i, stack, replies, pos).all != []
    decreases PlaceRank(|lines|, i, stack)
  {
    if i == |lines| then Walk([], EndOfScript)
    else
      NextFalls(lines, number, i, stack, replies(pos));
      match NextOf(lines, number, i, stack, replies(pos))
      case Halt(ending) => Walk([lines[i]], ending)
      case Go(j, s) =>
        var rest := WalkFrom(lines, number, j, s, replies, NextPos(lines, i, pos));
        Walk([lines[i]] + rest.all, rest.ending)
  }

  lemma {:induction false} WalkUnfolds(lines: seq<string>, number: string -> Number, i: nat, stack: seq<nat>,
                                       replies: nat -> Reply, pos: nat)
    requires InScript(|lines|, i, stack) && i < |lines|
    ensures var walk := WalkFrom(lines, number, i, stack, replies, pos);
            match NextOf(lines, number, i, stack, replies(pos))
            case Halt(ending) => walk == Walk([lines[i]], ending)
            case Go(j, s) =>
              && InScript(|lines|, j, s)
              && walk.all == [lines[i]] + WalkFrom(lines, number, j, s, replies, NextPos(lines, i, pos)).all
              && walk.all[1..] == WalkFrom(lines, number, j, s, replies, NextPos(lines, i, pos)).all
              && walk.ending == WalkFrom(lines, number, j, s, replies, NextPos(lines, i, pos)).ending
  {
    hide NextOf, InScript, Classify;
    NextFalls(lines, number, i, stack, replies(pos));
  }

  // ---- The errors shown on the way ----

  /** The reasons of the errors among what was shown. */
  function Failures(shown: seq<Notice>): seq<Reason> {
    if shown == [] then []
    else
      var last := shown[|shown| - 1];
      Failures(shown[..|shown| - 1]) + if last.ScriptError? then [last.reason] else []
  }

  function FailureOf(ending: Ending): seq<Reason> {
    if ending.Failed? then [ending.reason] else []
  }

  ghost predicate Adds(before: seq<Notice>, shown: seq<Notice>, reasons: seq<Reason>) {
    Failures(shown) == Failures(before) + reasons
  }

  lemma {:induction false} OneMoreShown(shown: seq<Notice>, notice: Notice)
    ensures Failures(shown + [notice]) == Failures(shown) + if notice.ScriptError? then [notice.reason] else []
  {
    InitOfSnoc(shown, notice);
  }

  lemma {:induction false} ErrorAdds(shown: seq<Notice>, reason: Reason)
    ensures Adds(shown, shown + [ScriptError(reason)], [reason])
  {
    hide Failures;
    OneMoreShown(shown, ScriptError(reason));
  }

  lemma {:induction false} NoErrorAdds(before: seq<Notice>, shown: seq<Notice>, notice: Notice)
    requires shown == before || (!notice.ScriptError? && shown == before + [notice])
    ensures Adds(before, shown, [])
  {
    hide Failures;
    ConcatNothing(Failures(before));
    OneMoreShown(before, notice);
  }

  // ---- What one tick does about the line the machine stands on ----

  /** The limit of an [ASK] passes on this tick. */
  predicate TimesOut(m: Machine, t: Tick) {
    m.state == WaitAsk && m.deadline.Some? && !t.enterPressed && t.now >= m.deadline.value
  }

  /** What the tick brings from outside is what the reply for this line says. */
  predicate Agrees(line: string, m: Machine, t: Tick, reply: Reply) {
    && (m.state == WaitIfResponse && t.ifAnswered ==> reply.answer == t.answer)
    && (m.state == RunTask ==> reply.run == t.run)
    && (TimesOut(m, t) ==> reply.late)
    && (Classify(line) == Ask && ((m.state == WaitAsk && t.enterPressed) || m.state == ExecuteCommand || m.state == WaitResponse) ==>
          !reply.late)
  }

  ghost predicate Waits(m: Machine, next: Machine) {
    next.state != Done && Stays(m, next) && Adds(m.shown, next.shown, [])
  }

  ghost predicate Moves(m: Machine, next: Machine, to: Next) {
    next.state == GetCommand && to == Go(next.i, next.stack) && Adds(m.shown, next.shown, [])
  }

  ghost predicate Halts(m: Machine, next: Machine, to: Next) {
    && next.state == Done && to.Halt? && (m.state == WaitAsk ==> next.i == m.i)
    && Adds(m.shown, next.shown, FailureOf(to.ending))
  }

  /** From an answered [ASK] straight to the [IF] behind it. */
  ghost predicate Leaps(lines: seq<string>, m: Machine, next: Machine, to: Next) {
    && m.state == WaitAsk && to == Go(m.i + 1, m.stack)
    && m.i + 1 < |lines| && Classify(lines[m.i + 1]) == If && next.i == m.i + 1 && next.stack == m.stack
    && if EndifFrom(lines, m.i + 2, 0) >= |lines| then next.state == Done && Adds(m.shown, next.shown, [NoEndif])
       else next.state == ExecuteIf && Adds(m.shown, next.shown, [])
  }

  ghost predicate Does(lines: seq<string>, m: Machine, next: Machine, to: Next) {
    Waits(m, next) || Moves(m, next, to) || Halts(m, next, to) || Leaps(lines, m, next, to)
  }

  lemma {:induction false} CallDoes(lines: seq<string>, m: Machine, name: string, resume: nat)
    ensures var called, to := Call(m, lines, name, resume), CallTo(lines, name, resume, m.stack);
            if to.Halt? then called.state == Done && called.i == m.i && Adds(m.shown, called.shown, FailureOf(to.ending))
            else called.state == m.state && to == Go(called.i, called.stack) && called.shown == m.shown
  {
    hide SubFrom, Adds;
    var to := CallTo(lines, name, resume, m.stack);
    if to.Halt? { ErrorAdds(m.shown, to.ending.reason); }
  }

  lemma {:induction false} JumpDoes(lines: seq<string>, m: Machine, c: Command)
    requires m.state == GetCommand && IsJump(c)
    ensures Does(lines, m, JumpStep(lines, m, c), JumpNext(lines, m.i, m.stack, c))
  {
    hide Call, CallTo, EndsubFrom, EndifFrom, Adds, Leaps, Waits;
    NoErrorAdds(m.shown, m.shown, PressEnter);
    match c
    case Gosub(name) => CallDoes(lines, m, name, m.i + 1);
    case Sub => ErrorAdds(m.shown, if m.stack != [] then SubInsideSub else NoEndsub);
    case Return => ErrorAdds(m.shown, NothingToReturn);
    case SkipToEndif => ErrorAdds(m.shown, NoEndif);
    case _ =>
  }

  lemma {:induction false} InstantDoes(lines: seq<string>, m: Machine, line: string, c: Command)
    requires m.state == GetCommand && IsInstant(c)
    ensures Does(lines, m, InstantStep(m, line, c), Go(m.i + 1, m.stack))
  {
    hide ScriptMachine.After, Adds, Leaps, Waits, Halts;
    NoErrorAdds(m.shown, InstantStep(m, line, c).shown, Printed(ScriptMachine.After(line, 7)));
  }

  /** A line that begins a wait, or fails to. */
  lemma {:induction false} BeginningDoes(lines: seq<string>, number: string -> Number, m: Machine, c: Command,
      t: Tick, reply: Reply)
    requires m.state == GetCommand && m.i < |lines| && c == Classify(lines[m.i]) && !IsJump(c) && !IsInstant(c)
    ensures Does(lines, m, WaitingStep(lines, number, m, lines[m.i], c, t), NextOf(lines, number, m.i, m.stack, reply))
  {
    hide Classify, ParseAsk, EndifFrom, BranchFrom, LateNext, ScriptMachine.After, Between, Adds, Leaps, Moves;
    var line := lines[m.i];
    NoErrorAdds(m.shown, m.shown, PressEnter);
    hide IfNext, RunNext;
    match c
    case Pause => NoErrorAdds(m.shown, m.shown + [PressEnter], PressEnter);
    case Ask =>
      var header := ParseAsk(line, number);
      ErrorAdds(m.shown, BadAsk);
      if header.Some? {
        var request := Request(ScriptMachine.After(line, header.value.textStart));
        NoErrorAdds(m.shown, m.shown + [request], request);
      }
    case Run => ErrorAdds(m.shown, EmptyRun);
    case WaitForResult =>
    case FileIn => NoErrorAdds(m.shown, m.shown + [PasteFile(Between(line, 9))], PasteFile(Between(line, 9)));
    case If => ErrorAdds(m.shown, NoEndif);
    case Plain =>
  }

  lemma {:induction false} LookDoes(lines: seq<string>, number: string -> Number, m: Machine, t: Tick, reply: Reply)
    requires m.state == GetCommand && m.i < |lines|
    ensures Does(lines, m, GetCommandStep(lines, number, m, t), NextOf(lines, number, m.i, m.stack, reply))
  {
    hide Classify, JumpStep, JumpNext, InstantStep, WaitingStep, IfNext, AskNext, RunNext, Does;
    var c := Classify(lines[m.i]);
    if IsJump(c) {
      JumpDoes(lines, m, c);
    } else if IsInstant(c) {
      InstantDoes(lines, m, lines[m.i], c);
    } else {
      BeginningDoes(lines, number, m, c, t, reply);
    }
  }

  lemma {:induction false} LateDoes(lines: seq<string>, m: Machine, m0: Machine, name: string)
    requires m.state == WaitAsk && m0.state == WaitAsk && m0.i == m.i && m0.stack == m.stack && m0.shown == m.shown
    ensures var next := if name == "" then m0.(state := Done) else CallAfterAsk(lines, m0, name);
            Does(lines, m, next, LateNext(lines, name, m.i, m.stack))
  {
    hide IfFollows, EndifFrom, Call, CallTo, Adds, Leaps, Waits;
    NoErrorAdds(m.shown, m.shown, PressEnter);
    ErrorAdds(m.shown, NoEndif);
    CallDoes(lines, m0, name, m.i + 1);
    CallDoes(lines, m0, name, EndifFrom(lines, m.i + 2, 0) + 1);
  }

  lemma {:induction false} TimeoutDoes(lines: seq<string>, number: string -> Number, m: Machine, t: Tick, reply: Reply)
    requires Inv(lines, number, m) && TimesOut(m, t) && reply.late
    ensures m.i < |lines|
    ensures Does(lines, m, WaitAskStep(lines, number, m, t), NextOf(lines, number, m.i, m.stack, reply))
  {
    DeadlineLine(lines, number, m);
    hide Control, Classify, ParseAsk, CallAfterAsk, LateNext, Does, AskAnswered;
    var m0 := m.(deadline := None, keyboard := m.savedKeyboard);
    LateDoes(lines, m, m0, ParseAsk(lines[m.i], number).value.name);
    TimedOutRestores(lines, number, m, t);
  }

  lemma {:induction false} DeadlineLine(lines: seq<string>, number: string -> Number, m: Machine)
    requires Inv(lines, number, m) && m.state == WaitAsk
    ensures m.i < |lines| && !IsJump(Classify(lines[m.i])) && Classify(lines[m.i]) != If && Classify(lines[m.i]) != Run
    ensures Classify(lines[m.i]) == Ask ==> ParseAsk(lines[m.i], number).Some?
    ensures m.deadline.Some? ==> Classify(lines[m.i]) == Ask && ParseAsk(lines[m.i], number).value.limit.Some?
  {
    hide Classify, ParseAsk;
  }

  lemma {:induction false} AnswerForIfDoes(lines: seq<string>, m: Machine, m0: Machine, typed: string)
    requires m.state == WaitAsk && IfFollows(lines, m.i)
    requires m0.state == WaitAsk && m0.i == m.i && m0.stack == m.stack && m0.shown == m.shown
    ensures Leaps(lines, m, AnswerForIf(lines, m0, typed).(deadline := None), Go(m.i + 1, m.stack))
    ensures AnswerForIf(lines, m0, typed).state != WaitAsk
  {
    hide StartsWith, Classify, EndifFrom, QuotedAnswer, ScriptMachine.After, Adds;
    IfLine(lines[m.i + 1]);
    NoErrorAdds(m.shown, m.shown, PressEnter);
    ErrorAdds(m.shown, NoEndif);
  }

  lemma {:induction false} AskDoes(lines: seq<string>, number: string -> Number, m: Machine, t: Tick, reply: Reply)
    requires Inv(lines, number, m) && m.state == WaitAsk && m.i < |lines| && Agrees(lines[m.i], m, t, reply)
    ensures Does(lines, m, WaitAskStep(lines, number, m, t), NextOf(lines, number, m.i, m.stack, reply))
  {
    hide Control, WaitAskStep, NextOf, Does, Classify;
    if TimesOut(m, t) {
      TimeoutDoes(lines, number, m, t, reply);
    } else {
      DeadlineLine(lines, number, m);
      NotTimedOut(lines, number, m, t);
      if t.enterPressed { AnsweredGoesOn(lines, number, m, t, reply); }
      AnswerDoes(lines, number, m, t, reply);
    }
  }

  lemma {:induction false} NotTimedOut(lines: seq<string>, number: string -> Number, m: Machine, t: Tick)
    requires m.state == WaitAsk && m.i < |lines| && !TimesOut(m, t)
    ensures WaitAskStep(lines, number, m, t)
            == var next := AskAnswered(lines, m, t); if next.state != WaitAsk then next.(deadline := None) else next
  {
    hide AskAnswered, ParseAsk, CallAfterAsk;
  }

  lemma {:induction false} AnswerDoes(lines: seq<string>, number: string -> Number, m: Machine, t: Tick, reply: Reply)
    requires m.state == WaitAsk && m.i < |lines|
    requires t.enterPressed ==> NextOf(lines, number, m.i, m.stack, reply) == Go(m.i + 1, m.stack)
    ensures var next := AskAnswered(lines, m, t);
            Does(lines, m, if next.state != WaitAsk then next.(deadline := None) else next, NextOf(lines, number, m.i, m.stack, reply))
  {
    hide NextOf, AnswerForIf, IfFollows, Adds, Halts, Moves, Leaps;
    NoErrorAdds(m.shown, m.shown, PressEnter);
    if t.enterPressed && IfFollows(lines, m.i) {
      AnswerForIfDoes(lines, m, m.(keyboard := m.savedKeyboard), t.typed);
    }
  }

  lemma {:induction false} AnsweredGoesOn(lines: seq<string>, number: string -> Number, m: Machine, t: Tick, reply: Reply)
    requires m.state == WaitAsk && m.i < |lines| && Agrees(lines[m.i], m, t, reply) && t.enterPressed
    requires !IsJump(Classify(lines[m.i])) && Classify(lines[m.i]) != If && Classify(lines[m.i]) != Run
    requires Classify(lines[m.i]) == Ask ==> ParseAsk(lines[m.i], number).Some?
    ensures NextOf(lines, number, m.i, m.stack, reply) == Go(m.i + 1, m.stack)
  {
    hide Classify, ParseAsk, LateNext;
  }

  lemma {:induction false} RunDoes(lines: seq<string>, m: Machine, line: string, t: Tick)
    requires m.state == RunTask && |line| > 6
    ensures Does(lines, m, RunTaskStep(m, t), RunNext(line, m.i, m.stack, t.run))
  {
    hide Adds, Leaps, Waits;
    NoErrorAdds(m.shown, m.shown, PressEnter);
    ErrorAdds(m.shown, if t.run.NotKnown? then UnknownTask else RunTooDeep);
  }

  lemma {:induction false} WaitingLineIs(lines: seq<string>, number: string -> Number, m: Machine)
    requires Inv(lines, number, m) && m.state != GetCommand && m.state != Done
    ensures m.i < |lines| && !IsJump(Classify(lines[m.i]))
    ensures Classify(lines[m.i]) == If <==> m.state == ExecuteIf || m.state == WaitIfResponse
    ensures Classify(lines[m.i]) == Run <==> m.state == RunTask
    ensures m.state == RunTask ==> |lines[m.i]| > 6
    ensures m.state == WaitIfResponse ==> EndifFrom(lines, m.i + 1, 0) < |lines|
    ensures Classify(lines[m.i]) == Ask ==> m.state == WaitAsk || m.state == ExecuteCommand || m.state == WaitResponse
    ensures Classify(lines[m.i]) == Ask ==> ParseAsk(lines[m.i], number).Some?
  {
    hide Classify, ParseAsk, EndifFrom;
  }

  lemma {:induction false} IfWaitDoes(lines: seq<string>, m: Machine, t: Tick, answer: int)
    requires m.state == WaitIfResponse && EndifFrom(lines, m.i + 1, 0) < |lines| && (t.ifAnswered ==> answer == t.answer)
    ensures Does(lines, m, IfAnswered(lines, m, t), IfNext(lines, m.i, m.stack, answer))
  {
    hide EndifFrom, BranchFrom, Adds, Halts, Leaps;
    NoErrorAdds(m.shown, m.shown, PressEnter);
  }

  lemma {:induction false} NextOfOthers(lines: seq<string>, number: string -> Number, i: nat, stack: seq<nat>, reply: Reply)
    requires i < |lines|
    ensures Classify(lines[i]) == If ==> NextOf(lines, number, i, stack, reply) == IfNext(lines, i, stack, reply.answer)
    ensures var c := Classify(lines[i]);
            !IsJump(c) && c != If && c != Run
            && (c == Ask ==> !reply.late && ParseAsk(lines[i], number).Some?)
            ==> NextOf(lines, number, i, stack, reply) == Go(i + 1, stack)
  {
    hide Classify, ParseAsk, IfNext, LateNext;
  }

  lemma {:induction false} OtherWaitsDo(lines: seq<string>, number: string -> Number, m: Machine, t: Tick, reply: Reply)
    requires Inv(lines, number, m) && m.state != GetCommand && m.state != Done && m.state != WaitAsk && m.state != RunTask
    requires m.i < |lines| && Agrees(lines[m.i], m, t, reply) && !t.exitRequested
    ensures Does(lines, m, Step(lines, number, m, t), NextOf(lines, number, m.i, m.stack, reply))
  {
    hide Control, Classify, ParseAsk, EndifFrom, IfAnswered, IfNext, NextOf, Adds, Halts, Leaps, GetCommandStep,
        WaitAskStep;
    WaitingLineIs(lines, number, m);
    NextOfOthers(lines, number, m.i, m.stack, reply);
    if m.state == WaitIfResponse {
      IfWaitDoes(lines, m, t, reply.answer);
    } else {
      NoErrorAdds(m.shown, Step(lines, number, m, t).shown, Echoed(m.input));
    }
  }

  /** What any tick without a request to exit does. */
  lemma {:induction false} TickDoes(lines: seq<string>, number: string -> Number, m: Machine, t: Tick, reply: Reply)
    requires Inv(lines, number, m) && m.state != Done && m.i < |lines|
    requires Agrees(lines[m.i], m, t, reply) && !t.exitRequested
    ensures Does(lines, m, Step(lines, number, m, t), NextOf(lines, number, m.i, m.stack, reply))
  {
    hide Control, Does, NextOf, GetCommandStep, WaitAskStep, RunTaskStep;
    if m.state == GetCommand {
      LookDoes(lines, number, m, t, reply);
    } else if m.state == WaitAsk {
      AskDoes(lines, number, m, t, reply);
    } else if m.state == RunTask {
      WaitingLineIs(lines, number, m);
      RunDoes(lines, m, lines[m.i], t);
      NextOfRun(lines, number, m.i, m.stack, reply);
    } else {
      OtherWaitsDo(lines, number, m, t, reply);
    }
  }

  lemma {:induction false} NextOfRun(lines: seq<string>, number: string -> Number, i: nat, stack: seq<nat>, reply: Reply)
    requires i < |lines| && Classify(lines[i]) == Run
    ensures NextOf(lines, number, i, stack, reply) == RunNext(lines[i], i, stack, reply.run)
  {
    hide Classify;
  }

  // ---- What is taken up and what is ahead ----

  /** The line a tick takes up, if it takes one up. */
  function TakenUp(lines: seq<string>, m: Machine, next: Machine): seq<string> {
    if m.state == GetCommand then if m.i < |lines| then [lines[m.i]] else []
    else if Dispatches(lines, m, next) && m.i + 1 < |lines| then [lines[m.i + 1]]
    else []
  }

  /** The reply the next line will use: a reply is used up when its line is left. */
  function PosAfter(lines: seq<string>, m: Machine, next: Machine, pos: nat): nat {
    if m.i >= |lines| || (next.i == m.i && next.stack == m.stack) then pos else NextPos(lines, m.i, pos)
  }

  /** What a machine in this state still has to take up. */
  ghost function Remaining(lines: seq<string>, number: string -> Number, m: Machine, replies: nat -> Reply,
      pos: nat): seq<string>
    requires Inv(lines, number, m)
  {
    InvIsInScript(lines, number, m);
    if m.state == Done then []
    else if m.state == GetCommand then WalkFrom(lines, number, m.i, m.stack, replies, pos).all
    else WalkFrom(lines, number, m.i, m.stack, replies, pos).all[1..]
  }

  /** The error a machine in this state is still going to show. */
  ghost function FailureToCome(lines: seq<string>, number: string -> Number, m: Machine, replies: nat -> Reply,
      pos: nat): seq<Reason>
    requires Inv(lines, number, m)
  {
    InvIsInScript(lines, number, m);
    if m.state == Done then [] else FailureOf(WalkFrom(lines, number, m.i, m.stack, replies, pos).ending)
  }

  lemma {:induction false} AheadMeans(lines: seq<string>, number: string -> Number, m: Machine,
      replies: nat -> Reply, pos: nat)
    requires Inv(lines, number, m)
    ensures InScript(|lines|, m.i, m.stack)
    ensures m.state == Done ==>
              Remaining(lines, number, m, replies, pos) == [] && FailureToCome(lines, number, m, replies, pos) == []
    ensures m.state != Done ==>
              FailureToCome(lines, number, m, replies, pos) == FailureOf(WalkFrom(lines, number, m.i, m.stack, replies, pos).ending)
    ensures m.state == GetCommand ==>
              Remaining(lines, number, m, replies, pos) == WalkFrom(lines, number, m.i, m.stack, replies, pos).all
    ensures m.state != Done && m.state != GetCommand ==>
              (WalkFrom(lines, number, m.i, m.stack, replies, pos).all != []
               && Remaining(lines, number, m, replies, pos) == WalkFrom(lines, number, m.i, m.stack, replies, pos).all[1..])
  {
    InvIsInScript(lines, number, m);
    hide WalkFrom, FailureOf;
  }

  /** What a tick takes up and shows, and what is ahead after it, is together what was ahead before it. */
  ghost predicate Conserves(lines: seq<string>, number: string -> Number, m: Machine, next: Machine,
                            replies: nat -> Reply, pos: nat, after: nat)
    requires Inv(lines, number, m) && Inv(lines, number, next)
  {
    && TakenUp(lines, m, next) + Remaining(lines, number, next, replies, after) == Remaining(lines, number, m, replies, pos)
    && Failures(next.shown) + FailureToCome(lines, number, next, replies, after)
       == Failures(m.shown) + FailureToCome(lines, number, m, replies, pos)
  }

  lemma {:induction false} SplitFirst(s: seq<string>, x: string)
    requires s != [] && s[0] == x
    ensures s == [x] + s[1..]
  {
  }

  lemma {:induction false} WaitsConserves(lines: seq<string>, number: string -> Number, m: Machine, next: Machine,
                                          replies: nat -> Reply, pos: nat)
    requires Inv(lines, number, m) && Inv(lines, number, next) && m.state != Done && m.i < |lines| && Waits(m, next)
    ensures Conserves(lines, number, m, next, replies, pos, pos)
  {
    hide Inv, WalkFrom, NextOf, Classify, InScript, Failures, Remaining, FailureToCome, FailureOf;
    AheadMeans(lines, number, m, replies, pos);
    AheadMeans(lines, number, next, replies, pos);
    ConcatNothing(Failures(m.shown));
    var all := WalkFrom(lines, number, m.i, m.stack, replies, pos).all;
    WalkUnfolds(lines, number, m.i, m.stack, replies, pos);
    if m.state == GetCommand { SplitFirst(all, lines[m.i]); } else { NothingConcat(all[1..]); }
  }

  lemma {:induction false} MovesConserves(lines: seq<string>, number: string -> Number, m: Machine, next: Machine,
                                          replies: nat -> Reply, pos: nat)
    requires Inv(lines, number, m) && Inv(lines, number, next) && m.state != Done && m.i < |lines|
    requires InScript(|lines|, m.i, m.stack) && Moves(m, next, NextOf(lines, number, m.i, m.stack, replies(pos)))
    ensures Conserves(lines, number, m, next, replies, pos, NextPos(lines, m.i, pos))
  {
    hide Inv, WalkFrom, NextOf, Classify, InScript, Failures, Remaining, FailureToCome, FailureOf;
    AheadMeans(lines, number, m, replies, pos);
    AheadMeans(lines, number, next, replies, NextPos(lines, m.i, pos));
    WalkUnfolds(lines, number, m.i, m.stack, replies, pos);
    ConcatNothing(Failures(m.shown));
    if m.state != GetCommand { NothingConcat(WalkFrom(lines, number, m.i, m.stack, replies, pos).all[1..]); }
  }

  lemma {:induction false} HaltsConserves(lines: seq<string>, number: string -> Number, m: Machine, next: Machine,
                                          replies: nat -> Reply, pos: nat, after: nat)
    requires Inv(lines, number, m) && Inv(lines, number, next) && m.state != Done && m.i < |lines|
    requires InScript(|lines|, m.i, m.stack) && Halts(m, next, NextOf(lines, number, m.i, m.stack, replies(pos)))
    ensures Conserves(lines, number, m, next, replies, pos, after)
  {
    hide Inv, WalkFrom, NextOf, Classify, InScript, Failures, Remaining, FailureToCome, FailureOf;
    AheadMeans(lines, number, m, replies, pos);
    AheadMeans(lines, number, next, replies, after);
    WalkUnfolds(lines, number, m.i, m.stack, replies, pos);
    ConcatNothing(Failures(next.shown));
    ConcatNothing([lines[m.i]]);
  }

  lemma {:induction false} LeapsConserves(lines: seq<string>, number: string -> Number, m: Machine, next: Machine,
                                          replies: nat -> Reply, pos: nat)
    requires Inv(lines, number, m) && Inv(lines, number, next) && m.i < |lines|
    requires InScript(|lines|, m.i, m.stack) && Leaps(lines, m, next, NextOf(lines, number, m.i, m.stack, replies(pos)))
    ensures Conserves(lines, number, m, next, replies, pos, NextPos(lines, m.i, pos))
  {
    hide Inv, WalkFrom, NextOf, Classify, InScript, Failures, Remaining, FailureToCome, EndifFrom;
    var after := NextPos(lines, m.i, pos);
    AheadMeans(lines, number, m, replies, pos);
    AheadMeans(lines, number, next, replies, after);
    WalkUnfolds(lines, number, m.i, m.stack, replies, pos);
    WalkUnfolds(lines, number, m.i + 1, m.stack, replies, after);
    IfHalts(lines, number, m.i + 1, m.stack, replies(after));
    ConcatNothing(Failures(m.shown));
    ConcatNothing(Failures(next.shown));
    ConcatNothing([lines[m.i + 1]]);
    SplitFirst(WalkFrom(lines, number, m.i + 1, m.stack, replies, after).all, lines[m.i + 1]);
  }

  lemma {:induction false} IfHalts(lines: seq<string>, number: string -> Number, i: nat, stack: seq<nat>, reply: Reply)
    requires i < |lines| && Classify(lines[i]) == If
    ensures EndifFrom(lines, i + 1, 0) >= |lines| ==> NextOf(lines, number, i, stack, reply) == Halt(Failed(NoEndif))
  {
    hide Classify, EndifFrom;
  }

  /** The line is left, so its reply is used up. */
  lemma {:induction false} LeavesLine(lines: seq<string>, number: string -> Number, m: Machine, next: Machine,
      reply: Reply, pos: nat)
    requires m.i < |lines| && InScript(|lines|, m.i, m.stack)
    requires Moves(m, next, NextOf(lines, number, m.i, m.stack, reply))
             || Leaps(lines, m, next, NextOf(lines, number, m.i, m.stack, reply))
    ensures PosAfter(lines, m, next, pos) == NextPos(lines, m.i, pos)
  {
    hide NextOf, Adds, Classify, InScript, EndifFrom, Rank;
    NextFalls(lines, number, m.i, m.stack, reply);
  }

  /** The tick agrees with the replies. */
  predicate AgreesAt(lines: seq<string>, m: Machine, t: Tick, reply: Reply) {
    m.i < |lines| ==> Agrees(lines[m.i], m, t, reply)
  }

  lemma {:induction false} TickConserves(lines: seq<string>, number: string -> Number, m: Machine, t: Tick,
                                         replies: nat -> Reply, pos: nat)
    requires Inv(lines, number, m) && !t.exitRequested && AgreesAt(lines, m, t, replies(pos))
    ensures var next := Step(lines, number, m, t);
            Inv(lines, number, next) && Conserves(lines, number, m, next, replies, pos, PosAfter(lines, m, next, pos))
  {
    StepKeepsInv(lines, number, m, t);
    InvIsInScript(lines, number, m);
    var next := Step(lines, number, m, t);
    if m.state == Done || m.i >= |lines| {
      OverIsOver(lines, number, m, t);
      hide Inv, Step, Failures;
      AheadMeans(lines, number, m, replies, pos);
      AheadMeans(lines, number, next, replies, pos);
      WalkEnds(lines, number, m.stack, replies, pos);
      ConcatNothing(Failures(m.shown));
    } else {
      TickDoes(lines, number, m, t, replies(pos));
      hide Inv, Step, NextOf, InScript, Classify, Waits, Moves, Halts, Leaps, Conserves;
      var to := NextOf(lines, number, m.i, m.stack, replies(pos));
      if Waits(m, next) {
        WaitsConserves(lines, number, m, next, replies, pos);
        WaitsHere(m, next);
      } else if Halts(m, next, to) {
        HaltsConserves(lines, number, m, next, replies, pos, PosAfter(lines, m, next, pos));
      } else {
        LeavesLine(lines, number, m, next, replies(pos), pos);
        if Moves(m, next, to) {
          MovesConserves(lines, number, m, next, replies, pos);
        } else {
          LeapsConserves(lines, number, m, next, replies, pos);
        }
      }
    }
  }

  lemma {:induction false} WaitsHere(m: Machine, next: Machine)
    requires Waits(m, next)
    ensures next.i == m.i && next.stack == m.stack
  {
  }

  lemma {:induction false} OverIsOver(lines: seq<string>, number: string -> Number, m: Machine, t: Tick)
    requires Inv(lines, number, m) && (m.state == Done || m.i >= |lines|) && !t.exitRequested
    ensures var next := Step(lines, number, m, t);
            next.state == Done && next.shown == m.shown && next.i == m.i && next.stack == m.stack
    ensures m.state == Done || (m.state == GetCommand && m.i == |lines|)
  {
  }

  lemma {:induction false} WalkEnds(lines: seq<string>, number: string -> Number, stack: seq<nat>,
      replies: nat -> Reply, pos: nat)
    ensures InScript(|lines|, |lines|, stack) ==> WalkFrom(lines, number, |lines|, stack, replies, pos) == Walk([], EndOfScript)
  {
  }

  // ---- Whole runs ----

  /** Nobody asks to leave the script, and what the ticks bring is what the replies say, one after the other. */
  ghost predicate Follows(lines: seq<string>, number: string -> Number, m: Machine, ticks: seq<Tick>,
                          replies: nat -> Reply, pos: nat)
    requires Inv(lines, number, m)
    decreases |ticks|
  {
    ticks == [] ||
    (&& !ticks[0].exitRequested && AgreesAt(lines, m, ticks[0], replies(pos))
     && (StepKeepsInv(lines, number, m, ticks[0]);
         var next := Step(lines, number, m, ticks[0]);
         Follows(lines, number, next, ticks[1..], replies, PosAfter(lines, m, next, pos))))
  }

  /** The lines taken up in a run. */
  ghost function Trace(lines: seq<string>, number: string -> Number, m: Machine, ticks: seq<Tick>): seq<string>
    requires Inv(lines, number, m)
    decreases |ticks|
  {
    if ticks == [] then []
    else
      StepKeepsInv(lines, number, m, ticks[0]);
      var next := Step(lines, number, m, ticks[0]);
      TakenUp(lines, m, next) + Trace(lines, number, next, ticks[1..])
  }

  /** Which reply a run takes next. */
  ghost function Position(lines: seq<string>, number: string -> Number, m: Machine, ticks: seq<Tick>, pos: nat): nat
    requires Inv(lines, number, m)
    decreases |ticks|
  {
    if ticks == [] then pos
    else
      StepKeepsInv(lines, number, m, ticks[0]);
      var next := Step(lines, number, m, ticks[0]);
      Position(lines, number, next, ticks[1..], PosAfter(lines, m, next, pos))
  }

  lemma {:induction false} RunUnfolds(lines: seq<string>, number: string -> Number, m: Machine, ticks: seq<Tick>,
                                      replies: nat -> Reply, pos: nat)
    requires Inv(lines, number, m) && ticks != []
    ensures var next, rest := Step(lines, number, m, ticks[0]), ticks[1..];
            var after := PosAfter(lines, m, next, pos);
            && Inv(lines, number, next)
            && RunFrom(lines, number, m, ticks) == RunFrom(lines, number, next, rest)
            && Trace(lines, number, m, ticks) == TakenUp(lines, m, next) + Trace(lines, number, next, rest)
            && Position(lines, number, m, ticks, pos) == Position(lines, number, next, rest, after)
            && (Follows(lines, number, m, ticks, replies, pos) ==>
                  (&& !ticks[0].exitRequested && AgreesAt(lines, m, ticks[0], replies(pos))
                   && Follows(lines, number, next, rest, replies, after)))
  {
    StepKeepsInv(lines, number, m, ticks[0]);
    hide Step, Inv, TakenUp, AgreesAt, PosAfter;
  }

  /** However the waits are spread over the ticks, the lines a run has taken up and the lines still ahead of
      it are together the lines that were ahead of it; and so for the errors shown and the one to come. */
  lemma {:induction false} RunConserves(lines: seq<string>, number: string -> Number, m: Machine, ticks: seq<Tick>,
                                        replies: nat -> Reply, pos: nat)
    requires Inv(lines, number, m) && Follows(lines, number, m, ticks, replies, pos)
    ensures var end, after := RunFrom(lines, number, m, ticks), Position(lines, number, m, ticks, pos);
            && Trace(lines, number, m, ticks) + Remaining(lines, number, end, replies, after)
               == Remaining(lines, number, m, replies, pos)
            && Failures(end.shown) + FailureToCome(lines, number, end, replies, after)
               == Failures(m.shown) + FailureToCome(lines, number, m, replies, pos)
    decreases |ticks|
  {
    hide Step, LedTo, TimedAsk, EndifFrom, Remaining, FailureToCome, Failures, TakenUp, AgreesAt, PosAfter;
    if ticks == [] {
      NothingConcat(Remaining(lines, number, m, replies, pos));
    } else {
      RunUnfolds(lines, number, m, ticks, replies, pos);
      hide RunFrom, Trace, Position, Follows;
      TickConserves(lines, number, m, ticks[0], replies, pos);
      var next := Step(lines, number, m, ticks[0]);
      RunConserves(lines, number, next, ticks[1..], replies, PosAfter(lines, m, next, pos));
      ConcatAssociates(TakenUp(lines, m, next), Trace(lines, number, next, ticks[1..]),
                       Remaining(lines, number, RunFrom(lines, number, m, ticks), replies, Position(lines, number, m, ticks, pos)));
    }
  }

  lemma {:induction false} FinishedFromStart(lines: seq<string>, number: string -> Number, m: Machine, ticks: seq<Tick>,
                                             replies: nat -> Reply)
    requires Inv(lines, number, m) && m.state == GetCommand && m.i == 0 && m.stack == [] && m.shown == []
    requires Follows(lines, number, m, ticks, replies, 0) && RunFrom(lines, number, m, ticks).state == Done
    requires InScript(|lines|, 0, [])
    ensures var walk := WalkFrom(lines, number, 0, [], replies, 0);
            && Trace(lines, number, m, ticks) == walk.all
            && Failures(RunFrom(lines, number, m, ticks).shown) == FailureOf(walk.ending)
  {
    hide Inv, InScript, WalkFrom, Follows, Trace, RunFrom, Position, Remaining, FailureToCome, Failures, FailureOf;
    var end, after := RunFrom(lines, number, m, ticks), Position(lines, number, m, ticks, 0);
    RunConserves(lines, number, m, ticks, replies, 0);
    AheadMeans(lines, number, m, replies, 0);
    AheadMeans(lines, number, end, replies, after);
    NoFailures();
    ConcatNothing(Trace(lines, number, m, ticks));
    ConcatNothing(Failures(end.shown));
    NothingConcat(FailureOf(WalkFrom(lines, number, 0, [], replies, 0).ending));
  }

  lemma {:induction false} NoFailures()
    ensures Failures([]) == []
  {
  }

  /** A script that has run to its end, and was not left on request, took up exactly the lines of the walk its
      replies describe, in order, and showed exactly the error the walk ends with, if any. */
  lemma {:induction false} FinishedRunIsTheWalk(lines: seq<string>, number: string -> Number, keyboard: bool,
      tts: bool, echo: bool,
                                                ticks: seq<Tick>, replies: nat -> Reply)
    ensures Inv(lines, number, Start(keyboard, tts, echo)) && InScript(|lines|, 0, [])
    ensures var m, walk := Start(keyboard, tts, echo), WalkFrom(lines, number, 0, [], replies, 0);
            var end := RunFrom(lines, number, m, ticks);
            Follows(lines, number, m, ticks, replies, 0) && end.state == Done ==>
              Trace(lines, number, m, ticks) == walk.all && Failures(end.shown) == FailureOf(walk.ending)
  {
    var m := Start(keyboard, tts, echo);
    StartIsFine(lines, number, keyboard, tts, echo);
    assert InScript(|lines|, 0, []);
    hide Inv, InScript, WalkFrom, Follows, Trace, RunFrom, Failures;
    if Follows(lines, number, m, ticks, replies, 0) && RunFrom(lines, number, m, ticks).state == Done {
      FinishedFromStart(lines, number, m, ticks, replies);
    }
  }

  // ---- Every run has its replies ----

  ghost predicate NobodyLeaves(ticks: seq<Tick>) {
    forall k :: 0 <= k < |ticks| ==> !ticks[k].exitRequested
  }

  /** What the tick itself brings. */
  function OwnReply(m: Machine, t: Tick): Reply {
    Reply(t.answer, TimesOut(m, t), t.run)
  }

  /** The answer to this [ASK] was entered, so its limit did not pass. */
  predicate Entered(lines: seq<string>, m: Machine) {
    m.i < |lines| && Classify(lines[m.i]) == Ask && (m.state == ExecuteCommand || m.state == WaitResponse)
  }

  lemma {:induction false} WaitsInside(lines: seq<string>, number: string -> Number, m: Machine)
    requires Inv(lines, number, m)
    ensures m.state == WaitAsk ==> m.i < |lines|
  {
    hide LedTo, TimedAsk, EndifFrom;
  }

  /** A tick that leaves the machine waiting on its line says nothing about the reply, except that a limit did
      not pass once the answer is entered. */
  lemma {:induction false} WaitAgrees(lines: seq<string>, number: string -> Number, m: Machine, t: Tick, reply: Reply)
    requires Inv(lines, number, m) && m.i < |lines| && !t.exitRequested
    requires var next := Step(lines, number, m, t); next.state != Done && Stays(m, next)
    requires Entered(lines, Step(lines, number, m, t)) ==> !reply.late
    ensures AgreesAt(lines, m, t, reply)
  {
    hide Classify, ParseAsk, WaitAskStep, GetCommandStep, IfAnswered, Control;
    WaitsInside(lines, number, m);
    if m.state == WaitAsk { AskWaitsOn(lines, number, m, t); }
    if m.state == WaitIfResponse { AnswerEndsWait(lines, m, t); }
  }

  lemma {:induction false} AnswerEndsWait(lines: seq<string>, m: Machine, t: Tick)
    ensures t.ifAnswered ==> IfAnswered(lines, m, t).state == GetCommand
  {
    hide BranchFrom;
  }

  lemma {:induction false} AskWaitsOn(lines: seq<string>, number: string -> Number, m: Machine, t: Tick)
    requires m.state == WaitAsk && m.i < |lines|
    ensures var next := WaitAskStep(lines, number, m, t);
            next.state != Done && Stays(m, next) ==> !TimesOut(m, t) && (t.enterPressed ==> next.state == ExecuteCommand)
  {
    hide ParseAsk, CallAfterAsk, AskAnswered;
    var header := ParseAsk(lines[m.i], number);
    CallAfterAskRestores(lines, m.(deadline := None, keyboard := m.savedKeyboard), if header.Some? then header.value.name else "");
    AnsweredIsSent(lines, m, t);
  }

  lemma {:induction false} AnsweredIsSent(lines: seq<string>, m: Machine, t: Tick)
    requires m.state == WaitAsk && m.i < |lines|
    ensures var next := AskAnswered(lines, m, t);
            && (next.state != Done && next.i == m.i && t.enterPressed ==> next.state == ExecuteCommand)
            && (!t.enterPressed ==> next == m)
  {
    hide StartsWith, EndifFrom, QuotedAnswer, ScriptMachine.After;
  }

  /** Only the replies still to come matter. */
  lemma {:induction false} OnlyLaterReplies(lines: seq<string>, number: string -> Number, m: Machine, ticks: seq<Tick>,
                                            a: nat -> Reply, b: nat -> Reply, pos: nat)
    requires Inv(lines, number, m) && Follows(lines, number, m, ticks, a, pos)
    requires forall n :: n >= pos ==> a(n) == b(n)
    ensures Follows(lines, number, m, ticks, b, pos)
    decreases |ticks|
  {
    hide Step, AgreesAt;
    if ticks != [] {
      StepKeepsInv(lines, number, m, ticks[0]);
      var next := Step(lines, number, m, ticks[0]);
      OnlyLaterReplies(lines, number, next, ticks[1..], a, b, PosAfter(lines, m, next, pos));
    }
  }

  lemma {:induction false} OverFollows(lines: seq<string>, number: string -> Number, m: Machine, ticks: seq<Tick>,
                                       replies: nat -> Reply, pos: nat)
    requires Inv(lines, number, m) && m.state == Done && NobodyLeaves(ticks)
    ensures Follows(lines, number, m, ticks, replies, pos)
    decreases |ticks|
  {
    if ticks != [] {
      StepKeepsInv(lines, number, m, ticks[0]);
      OverIsOver(lines, number, m, ticks[0]);
      var next := Step(lines, number, m, ticks[0]);
      hide Step, Inv, Classify;
      OverFollows(lines, number, next, ticks[1..], replies, PosAfter(lines, m, next, pos));
    }
  }

  lemma {:induction false} OwnAgrees(lines: seq<string>, m: Machine, t: Tick)
    ensures AgreesAt(lines, m, t, OwnReply(m, t))
  {
    hide Classify;
  }

  /** A tick waits on its line, leaves it with the reply it brings, or ends the run. */
  lemma {:induction false} TickLeaves(lines: seq<string>, number: string -> Number, m: Machine, t: Tick, pos: nat)
    requires Inv(lines, number, m) && m.state != Done && m.i < |lines| && !t.exitRequested
    ensures var next := Step(lines, number, m, t);
            || next.state == Done
            || Stays(m, next)
            || PosAfter(lines, m, next, pos) == NextPos(lines, m.i, pos)
  {
    hide Classify;
    InvIsInScript(lines, number, m);
    var next := Step(lines, number, m, t);
    OwnAgrees(lines, m, t);
    TickDoes(lines, number, m, t, OwnReply(m, t));
    hide Inv, Step, NextOf, InScript, Adds;
    var to := NextOf(lines, number, m.i, m.stack, OwnReply(m, t));
    if !Waits(m, next) && !Halts(m, next, to) { LeavesLine(lines, number, m, next, OwnReply(m, t), pos); }
  }

  /** A line that takes no reply agrees with every reply. */
  lemma {:induction false} NoReplyNeeded(lines: seq<string>, number: string -> Number, m: Machine, t: Tick,
      reply: Reply)
    requires Inv(lines, number, m) && m.state != Done && (m.i < |lines| ==> !Consumes(Classify(lines[m.i])))
    ensures AgreesAt(lines, m, t, reply)
  {
    hide Classify, ParseAsk, EndifFrom;
  }

  /** The run before this tick follows the replies of the run behind it, with its own put in front where it
      leaves a line that takes one. */
  lemma {:induction false} FollowsFromNext(lines: seq<string>, number: string -> Number, m: Machine, ticks: seq<Tick>,
                                           later: nat -> Reply, pos: nat) returns (replies: nat -> Reply)
    requires Inv(lines, number, m) && NobodyLeaves(ticks) && ticks != []
    requires var next := Step(lines, number, m, ticks[0]);
             && Inv(lines, number, next)
             && Follows(lines, number, next, ticks[1..], later, PosAfter(lines, m, next, pos))
             && (Entered(lines, next) ==> !later(PosAfter(lines, m, next, pos)).late)
    ensures AgreesAt(lines, m, ticks[0], replies(pos))
    ensures var next := Step(lines, number, m, ticks[0]);
            Follows(lines, number, next, ticks[1..], replies, PosAfter(lines, m, next, pos))
  {
    hide Classify, Follows, Step, AgreesAt, Control, OwnReply, Entered;
    WaitsInside(lines, number, m);
    var t := ticks[0];
    var next := Step(lines, number, m, t);
    var own := OwnReply(m, t);
    OwnAgrees(lines, m, t);
    replies := (n: nat) => if n == pos then own else later(n);
    if m.state == Done || m.i >= |lines| {
      OverIsOver(lines, number, m, t);
      OverFollows(lines, number, next, ticks[1..], replies, PosAfter(lines, m, next, pos));
    } else {
      TickLeaves(lines, number, m, t, pos);
      if next.state == Done {
        OverFollows(lines, number, next, ticks[1..], replies, PosAfter(lines, m, next, pos));
      } else if Stays(m, next) {
        replies := later;
        WaitAgrees(lines, number, m, t, later(pos));
      } else if Consumes(Classify(lines[m.i])) {
        OnlyLaterReplies(lines, number, next, ticks[1..], later, replies, pos + 1);
      } else {
        replies := later;
        NoReplyNeeded(lines, number, m, t, later(pos));
      }
    }
  }

  /** Every run that nobody leaves on request follows some replies. */
  lemma {:induction false} EveryRunFollows(lines: seq<string>, number: string -> Number, m: Machine, ticks: seq<Tick>,
                                           pos: nat) returns (replies: nat -> Reply)
    requires Inv(lines, number, m) && NobodyLeaves(ticks)
    ensures Follows(lines, number, m, ticks, replies, pos)
    ensures Entered(lines, m) ==> !replies(pos).late
    decreases |ticks|
  {
    hide Step, Classify;
    if ticks == [] {
      replies := _ => Reply(0, false, Finished);
    } else {
      StepKeepsInv(lines, number, m, ticks[0]);
      var next := Step(lines, number, m, ticks[0]);
      var later := EveryRunFollows(lines, number, next, ticks[1..], PosAfter(lines, m, next, pos));
      hide PosAfter;
      replies := FollowsFromNext(lines, number, m, ticks, later, pos);
    }
  }

  /** So every finished run that nobody left on request is a walk: there are replies under which the lines it
      took up, and the error it showed, are those of the walk. */
  lemma {:induction false} EveryFinishedRunIsAWalk(lines: seq<string>, number: string -> Number, keyboard: bool,
      tts: bool, echo: bool, ticks: seq<Tick>) returns (replies: nat -> Reply)
    requires NobodyLeaves(ticks)
    ensures Inv(lines, number, Start(keyboard, tts, echo)) && InScript(|lines|, 0, [])
    ensures var m, walk := Start(keyboard, tts, echo), WalkFrom(lines, number, 0, [], replies, 0);
            var end := RunFrom(lines, number, m, ticks);
            && Follows(lines, number, m, ticks, replies, 0)
            && (end.state == Done ==> Trace(lines, number, m, ticks) == walk.all && Failures(end.shown) == FailureOf(walk.ending))
  {
    hide Inv, InScript, WalkFrom, Follows, Trace, RunFrom, Failures;
    StartIsFine(lines, number, keyboard, tts, echo);
    replies := EveryRunFollows(lines, number, Start(keyboard, tts, echo), ticks, 0);
    FinishedRunIsTheWalk(lines, number, keyboard, tts, echo, ticks, replies);
  }
}
