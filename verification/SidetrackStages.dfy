/** The stage machines that tidy up beside the main chat and share one helper chat: consolidation, clearing
    the context, and the second-guess review (source/sidetrack.cpp). */
module SidetrackStages {

  datatype Role = System | User | Assistant | Tool

  const MAX_CHAIN: nat := 10
  const MAX_CONTEXT_SIZE: nat := 200
  const IDLE: nat := 100

  /** What a tick meets: timers, the user's interrupt, how the helper chat's call stands, and what the other
      routines would leave of the history. */
  datatype Input = Input(
    persistentDue: bool, consolidationDue: bool, clearDue: bool, reviewDue: bool,
    interrupted: bool, callsTools: bool, callOver: bool, complete: bool, needsCorrection: bool, answered: bool,
    consolidated: seq<Role>, cleared: seq<Role>)

  datatype Stages = Stages(
    consolidation: nat, clear: nat, review: nat,
    chain: nat, previousSize: nat, reviewPreviousSize: nat, acted: bool,
    history: seq<Role>)

  function Begin(): Stages { Stages(0, 0, 0, 0, 0, 0, false, []) }

  // ---- One tick ----

  function NoticeActivity(s: Stages): Stages {
    if |s.history| != s.previousSize then s.(consolidation := 0, clear := 0) else s
  }

  function PersistentChecks(s: Stages, input: Input): Stages {
    if input.persistentDue && |s.history| > MAX_CONTEXT_SIZE then s.(history := input.cleared) else s
  }

  /** The body of the consolidation, which resets the helper chat, runs at stage 2. */
  function Consolidate(s: Stages, input: Input): Stages {
    if s.consolidation == 0 then s.(consolidation := 1)
    else if s.consolidation == 1 then
      if input.consolidationDue && s.review == IDLE then s.(consolidation := 2) else s
    else if s.consolidation == 2 then s.(history := input.consolidated, consolidation := IDLE)
    else s
  }

  function ClearContext(s: Stages, input: Input): Stages {
    if s.clear == 0 then s.(clear := 1)
    else if s.clear == 1 then if input.clearDue then s.(clear := 2) else s
    else if s.clear == 2 then s.(history := input.cleared, clear := IDLE)
    else s
  }

  /** Whether a user message has come in since the last tick, as far as the review can see. */
  predicate SeesUser(s: Stages) {
    |s.history| != s.reviewPreviousSize && s.history != [] && s.history[|s.history| - 1] == User
  }

  predicate SeesReply(s: Stages) {
    |s.history| != s.reviewPreviousSize && s.history != [] && s.history[|s.history| - 1] == Assistant
  }

  function NoticeReply(s: Stages): Stages {
    var s1 := if SeesUser(s) then s.(chain := 0)
              else if SeesReply(s) && s.review == IDLE && s.chain < MAX_CHAIN then s.(chain := s.chain + 1, review := 0)
              else s;
    s1.(reviewPreviousSize := |s.history|)
  }

  /** Whatever the helper chat really did is never left unsaid. */
  function CommitActions(s: Stages): Stages {
    s.(history := if s.acted then s.history + [Assistant] else s.history, acted := false, review := IDLE)
  }

  function CallStep(s: Stages, input: Input, over: nat): Stages {
    var s1 := s.(acted := s.acted || input.callsTools);
    if input.callOver then s1.(review := over) else s1
  }

  function Review(s: Stages, input: Input): Stages {
    if s.review < 2 && input.interrupted then s.(review := 0)
    else if s.review == 0 then s.(review := 1)
    else if s.review == 1 then if input.reviewDue then s.(review := 2) else s
    else if s.review == 2 then s.(review := 3)
    else if s.review == 3 then CallStep(s, input, 4)
    else if s.review == 4 then if !input.complete || !input.needsCorrection then CommitActions(s) else s.(review := 5)
    else if s.review == 5 then CallStep(s, input, 6)
    else if s.review == 6 then
      s.(history := if input.answered || !input.complete || s.acted then s.history + [Assistant] else s.history,
         acted := false, review := IDLE)
    else s
  }

  function Check(s: Stages, input: Input): Stages {
    var s1 := ClearContext(Consolidate(PersistentChecks(NoticeActivity(s), input), input), input);
    var s2 := Review(NoticeReply(s1), input);
    s2.(previousSize := |s2.history|)
  }

  /** Between ticks the main chat may leave any history behind. */
  function Chats(s: Stages, history: seq<Role>): Stages { s.(history := history) }

  // ---- The program's form ----

  class Sidetrack {
    var consolidationStage: nat
    var contextClearStage: nat
    var secondGuessStage: nat
    var chainCount: nat
    var previousHistorySize: nat
    var secondGuessPreviousSize: nat
    var actionsTaken: bool
    var history: seq<Role>

    function View(): Stages
      reads this
    {
      Stages(consolidationStage, contextClearStage, secondGuessStage, chainCount, previousHistorySize,
             secondGuessPreviousSize, actionsTaken, history)
    }

    constructor ()
      ensures View() == Begin()
    {
      consolidationStage, contextClearStage, secondGuessStage, chainCount := 0, 0, 0, 0;
      previousHistorySize, secondGuessPreviousSize, actionsTaken, history := 0, 0, false, [];
    }

    method PersistentTimeChecks(input: Input)
      modifies this`history
      ensures View() == PersistentChecks(old(View()), input)
    {
      if input.persistentDue && |history| > MAX_CONTEXT_SIZE { history := input.cleared; }
    }

    method RunConsolidation(input: Input)
      modifies this`consolidationStage, this`history
      ensures View() == Consolidate(old(View()), input)
    {
      if consolidationStage == 0 {
        consolidationStage := 1;
      } else if consolidationStage == 1 {
        if input.consolidationDue && secondGuessStage == IDLE { consolidationStage := 2; }
      } else if consolidationStage == 2 {
        history := input.consolidated;
        consolidationStage := IDLE;
      }
    }

    method RunClearContext(input: Input)
      modifies this`contextClearStage, this`history
      ensures View() == ClearContext(old(View()), input)
    {
      if contextClearStage == 0 {
        contextClearStage := 1;
      } else if contextClearStage == 1 {
        if input.clearDue { contextClearStage := 2; }
      } else if contextClearStage == 2 {
        history := input.cleared;
        contextClearStage := IDLE;
      }
    }

    method NoticeNewReply()
      modifies this`chainCount, this`secondGuessStage, this`secondGuessPreviousSize
      ensures View() == NoticeReply(old(View()))
    {
      if |history| != secondGuessPreviousSize && history != [] {
        var newest := history[|history| - 1];
        if newest == User {
          chainCount := 0;
        } else if newest == Assistant && secondGuessStage == IDLE && chainCount < MAX_CHAIN {
          chainCount := chainCount + 1;
          secondGuessStage := 0;
        }
      }
      secondGuessPreviousSize := |history|;
    }

    method CommitActionOnlyNote()
      modifies this`history, this`actionsTaken
      ensures history == if old(actionsTaken) then old(history) + [Assistant] else old(history)
      ensures !actionsTaken
    {
      if actionsTaken { history := history + [Assistant]; }
      actionsTaken := false;
    }

    method RunSecondGuess(input: Input)
      modifies this`secondGuessStage, this`history, this`actionsTaken
      ensures View() == Review(old(View()), input)
    {
      if secondGuessStage < 2 && input.interrupted {
        secondGuessStage := 0;
        return;
      }
      if secondGuessStage == 0 {
        secondGuessStage := 1;
      } else if secondGuessStage == 1 {
        if input.reviewDue { secondGuessStage := 2; }
      } else if secondGuessStage == 2 {
        secondGuessStage := 3;
      } else if secondGuessStage == 3 || secondGuessStage == 5 {
        if input.callsTools { actionsTaken := true; }
        if input.callOver { secondGuessStage := secondGuessStage + 1; }
      } else if secondGuessStage == 4 {
        if !input.complete || !input.needsCorrection {
          CommitActionOnlyNote();
          secondGuessStage := IDLE;
        } else {
          secondGuessStage := 5;
        }
      } else if secondGuessStage == 6 {
        if input.answered || !input.complete || actionsTaken { history := history + [Assistant]; }
        actionsTaken := false;
        secondGuessStage := IDLE;
      }
    }

    method Tick(input: Input)
      modifies this
      ensures View() == Check(old(View()), input)
    {
      hide PersistentChecks, Consolidate, ClearContext, NoticeReply, Review;
      if |history| != previousHistorySize {
        consolidationStage := 0;
        contextClearStage := 0;
      }
      PersistentTimeChecks(input);
      RunConsolidation(input);
      RunClearContext(input);
      NoticeNewReply();
      RunSecondGuess(input);
      previousHistorySize := |history|;
    }
  }

  // ---- The helper chat is never reset inside a review ----

  ghost predicate Reviewing(s: Stages) { 2 <= s.review <= 6 }

  ghost predicate Fine(s: Stages) {
    && (s.review <= 6 || s.review == IDLE)
    && (s.consolidation == 2 ==> !Reviewing(s))
    && s.chain <= MAX_CHAIN
  }

  /** The body of the consolidation runs in the next tick. */
  ghost predicate BodyRuns(s: Stages) {
    NoticeActivity(s).consolidation == 2
  }

  lemma {:induction false} ReviewStays(s: Stages, input: Input)
    requires s.review <= 6 || s.review == IDLE
    ensures var n := Review(NoticeReply(s), input);
            && (n.review <= 6 || n.review == IDLE)
            && n.consolidation == s.consolidation
            && (s.chain <= MAX_CHAIN ==> n.chain <= MAX_CHAIN)
            && (s.review == IDLE ==> !Reviewing(n))
  {
  }

  lemma {:induction false} CheckKeepsFine(s: Stages, input: Input)
    requires Fine(s)
    ensures Fine(Check(s, input))
  {
    hide NoticeReply, Review;
    var s1 := ClearContext(Consolidate(PersistentChecks(NoticeActivity(s), input), input), input);
    ReviewStays(s1, input);
  }

  /** What the main chat leaves behind between two ticks, and the tick after it. */
  datatype Turn = Turn(history: seq<Role>, input: Input)

  function Run(s: Stages, turns: seq<Turn>): Stages
    decreases |turns|
  {
    if turns == [] then s else Run(Check(Chats(s, turns[0].history), turns[0].input), turns[1..])
  }

  lemma {:induction false} RunKeepsFine(s: Stages, turns: seq<Turn>)
    requires Fine(s)
    ensures Fine(Run(s, turns))
    decreases |turns|
  {
    if turns != [] {
      CheckKeepsFine(Chats(s, turns[0].history), turns[0].input);
      hide Check;
      RunKeepsFine(Check(Chats(s, turns[0].history), turns[0].input), turns[1..]);
    }
  }

  /** After any run, and whatever happens to the history next, the tick that consolidates finds the review
      idle or not begun, so it never takes the helper chat away from one. */
  lemma {:induction false} NeverResetInReview(turns: seq<Turn>, history: seq<Role>)
    ensures var s := Chats(Run(Begin(), turns), history);
            BodyRuns(s) ==> s.review == 0 || s.review == 1 || s.review == IDLE
  {
    RunKeepsFine(Begin(), turns);
  }

  // ---- The review does not chain forever ----

  /** Whether the tick begins a review, and whether it puts a finished one back to the start. */
  ghost predicate Begins(s: Stages, input: Input) {
    Check(s, input).review == 2
  }

  ghost predicate Restarts(s: Stages, input: Input) {
    s.review == IDLE && Check(s, input).review != IDLE
  }

  /** The history the review looks at in a tick. */
  function Looked(s: Stages, input: Input): Stages {
    ClearContext(Consolidate(PersistentChecks(NoticeActivity(s), input), input), input)
  }

  ghost function Restarted(s: Stages, turns: seq<Turn>): nat
    decreases |turns|
  {
    if turns == [] then 0
    else
      var c := Chats(s, turns[0].history);
      (if Restarts(c, turns[0].input) then 1 else 0) + Restarted(Check(c, turns[0].input), turns[1..])
  }

  ghost function Begun(s: Stages, turns: seq<Turn>): nat
    decreases |turns|
  {
    if turns == [] then 0
    else
      var c := Chats(s, turns[0].history);
      (if Begins(c, turns[0].input) then 1 else 0) + Begun(Check(c, turns[0].input), turns[1..])
  }

  ghost predicate NoUserSeen(s: Stages, turns: seq<Turn>)
    decreases |turns|
  {
    turns == [] ||
    (var c := Chats(s, turns[0].history);
     !SeesUser(Looked(c, turns[0].input)) && NoUserSeen(Check(c, turns[0].input), turns[1..]))
  }

  function Left(s: Stages): nat
    requires s.chain <= MAX_CHAIN
  {
    MAX_CHAIN - s.chain + if s.review < 2 then 1 else 0
  }

  lemma {:induction false} TickSpends(s: Stages, input: Input)
    requires Fine(s) && !SeesUser(Looked(s, input))
    ensures var n := Check(s, input);
            && n.chain <= MAX_CHAIN
            && (s.chain + if Restarts(s, input) then 1 else 0) <= n.chain
            && Left(n) + (if Begins(s, input) then 1 else 0) <= Left(s)
  {
    LookedSame(s, input);
    hide ClearContext, Consolidate, PersistentChecks, NoticeActivity, SeesUser, SeesReply;
  }

  lemma {:induction false} LookedSame(s: Stages, input: Input)
    ensures Looked(s, input).review == s.review && Looked(s, input).chain == s.chain
  {
  }

  /** As long as no user message is seen, the review restarts at most ten times and begins at most eleven
      times, whatever it finds. */
  lemma {:induction false} ChainIsBounded(s: Stages, turns: seq<Turn>)
    requires Fine(s) && NoUserSeen(s, turns)
    ensures Restarted(s, turns) <= MAX_CHAIN - s.chain
    ensures Begun(s, turns) <= Left(s) <= MAX_CHAIN + 1
    decreases |turns|
  {
    hide Check, SeesUser, Looked, Restarts, Begins;
    if turns != [] {
      var c := Chats(s, turns[0].history);
      assert Fine(c) && Left(c) == Left(s);
      CheckKeepsFine(c, turns[0].input);
      TickSpends(c, turns[0].input);
      ChainIsBounded(Check(c, turns[0].input), turns[1..]);
    }
  }

  /** When the review comes to rest after the helper chat has used tools, the history ends with a message
      that says so. */
  lemma {:induction false} ActionsAreSaid(s: Stages, input: Input)
    requires Fine(s) && s.acted && !Check(s, input).acted
    ensures var n := Check(s, input);
            n.review == IDLE && n.history == Looked(s, input).history + [Assistant]
  {
    LookedActed(s, input);
    hide ClearContext, Consolidate, PersistentChecks, NoticeActivity, SeesUser, SeesReply;
  }

  lemma {:induction false} LookedActed(s: Stages, input: Input)
    ensures Looked(s, input).acted == s.acted
  {
  }

  lemma {:induction false} ReviewLeaves(s: Stages, input: Input)
    ensures var n := Review(NoticeReply(s), input); n.consolidation == s.consolidation && n.clear == s.clear
  {
  }

  /** When the number of messages has changed between two ticks, nothing is consolidated or cleared in the
      second, and both wait anew.  A message pushed inside a tick is counted at its end and postpones nothing. */
  lemma {:induction false} ActivityPostpones(s: Stages, input: Input)
    requires |s.history| != s.previousSize
    ensures Looked(s, input).history == PersistentChecks(s, input).history
    ensures Check(s, input).consolidation == 1 && Check(s, input).clear == 1
  {
    hide NoticeReply, Review;
    ReviewLeaves(Looked(s, input), input);
  }

  // ---- What a review leaves, and when it is the consolidation's turn ----

  /** The review, tick by tick. */
  function Reviewed(s: Stages, inputs: seq<Input>): Stages {
    if inputs == [] then s else Review(Reviewed(s, inputs[..|inputs| - 1]), inputs[|inputs| - 1])
  }

  /** Ticks in which a call of the helper chat goes on, and the one in which it is over. */
  ghost predicate OneCall(inputs: seq<Input>) {
    && inputs != [] && inputs[|inputs| - 1].callOver
    && forall k :: 0 <= k < |inputs| - 1 ==> !inputs[k].callOver
  }

  ghost predicate UsedTools(inputs: seq<Input>) {
    exists k :: 0 <= k < |inputs| && inputs[k].callsTools
  }

  lemma {:induction false} CallGoesOn(s: Stages, inputs: seq<Input>)
    requires (s.review == 3 || s.review == 5) && forall k :: 0 <= k < |inputs| ==> !inputs[k].callOver
    ensures Reviewed(s, inputs) == s.(acted := s.acted || UsedTools(inputs))
  {
    if inputs != [] {
      var before, last := inputs[..|inputs| - 1], inputs[|inputs| - 1];
      CallGoesOn(s, before);
      UsedInit(inputs);
      hide UsedTools;
    }
  }

  lemma {:induction false} UsedInit(inputs: seq<Input>)
    requires inputs != []
    ensures UsedTools(inputs) <==> UsedTools(inputs[..|inputs| - 1]) || inputs[|inputs| - 1].callsTools
  {
  }

  lemma {:induction false} CallIsOver(s: Stages, inputs: seq<Input>)
    requires (s.review == 3 || s.review == 5) && OneCall(inputs)
    ensures Reviewed(s, inputs) == s.(acted := s.acted || UsedTools(inputs), review := s.review + 1)
  {
    CallGoesOn(s, inputs[..|inputs| - 1]);
    UsedInit(inputs);
    hide UsedTools;
  }

  lemma {:induction false} ReviewedMore(s: Stages, a: seq<Input>, b: seq<Input>)
    ensures Reviewed(s, a + b) == Reviewed(Reviewed(s, a), b)
  {
    hide Review;
    if b == [] {
      assert a + b == a;
    } else {
      assert (a + b)[..|a + b| - 1] == a + b[..|b| - 1];
      ReviewedMore(s, a, b[..|b| - 1]);
    }
  }

  /** A review whose first call finds nothing to correct, or is cut off, ends there and says nothing of its own; only
      if a tool was used is there a message that says so. */
  lemma {:induction false} GoodReplyIsLeft(s: Stages, first: seq<Input>, verdict: Input)
    requires s.review == 3 && !s.acted && OneCall(first) && (!verdict.complete || !verdict.needsCorrection)
    ensures Reviewed(s, first + [verdict])
            == s.(review := IDLE, history := s.history + if UsedTools(first) then [Assistant] else [])
  {
    hide UsedTools, OneCall;
    ReviewedMore(s, first, [verdict]);
    CallIsOver(s, first);
    assert [verdict][..0] == [];
    assert s.history + [] == s.history;
  }

  /** A review that finds something to correct makes a second call and says what comes of it: nothing only if that has
      no answer, was not cut off, and no tool was used in either call. */
  lemma {:induction false} BadReplyIsCorrected(s: Stages, first: seq<Input>, verdict: Input, second: seq<Input>,
      last: Input)
    requires s.review == 3 && !s.acted && OneCall(first) && verdict.complete && verdict.needsCorrection && OneCall(second)
    ensures Reviewed(s, first + ([verdict] + (second + [last])))
            == s.(review := IDLE,
                  history := s.history + if last.answered || !last.complete || UsedTools(first) || UsedTools(second)
                                         then [Assistant] else [])
  {
    hide UsedTools, OneCall, Review, Reviewed;
    ReviewedMore(s, first, [verdict] + (second + [last]));
    CallIsOver(s, first);
    var called := Reviewed(s, first);
    ReviewedMore(called, [verdict], second + [last]);
    JudgeAndSay(called, verdict);
    var corrects := Reviewed(called, [verdict]);
    ReviewedMore(corrects, second, [last]);
    CallIsOver(corrects, second);
    JudgeAndSay(Reviewed(corrects, second), last);
    assert s.history + [] == s.history;
  }

  /** The tick that reads the verdict, and the one that says the correction. */
  lemma {:induction false} JudgeAndSay(s: Stages, input: Input)
    ensures s.review == 4 && input.complete && input.needsCorrection ==> Reviewed(s, [input]) == s.(review := 5)
    ensures s.review == 6 ==>
              Reviewed(s, [input])
              == s.(review := IDLE, acted := false,
                    history := if input.answered || !input.complete || s.acted then s.history + [Assistant] else s.history)
  {
    assert [input][..0] == [];
  }

  /** The consolidation is made ready only in a tick that finds it waiting, due, and the review at rest, with no
      message more or less than at the end of the tick before; its body runs only in the tick after that, if the
      number of messages is still the same, and then replaces the history. */
  lemma {:induction false} ConsolidatesOnlyWhenDue(s: Stages, input: Input)
    ensures Check(s, input).consolidation == 2 <==>
              |s.history| == s.previousSize && s.consolidation == 1 && input.consolidationDue && s.review == 100
    ensures s.consolidation <= 2 || s.consolidation == 100 ==>
              (Check(s, input).consolidation == 100 && s.consolidation != 100 <==>
                |s.history| == s.previousSize && s.consolidation == 2)
    ensures |s.history| == s.previousSize && s.consolidation == 2 ==>
              Consolidate(PersistentChecks(NoticeActivity(s), input), input).history == input.consolidated
  {
    hide ClearContext, NoticeReply, Review;
    var s1 := Consolidate(PersistentChecks(NoticeActivity(s), input), input);
    ClearLeaves(s1, input);
    ReviewLeaves(ClearContext(s1, input), input);
  }

  lemma {:induction false} ClearLeaves(s: Stages, input: Input)
    ensures var n := ClearContext(s, input); n.consolidation == s.consolidation && n.review == s.review
  {
  }

  /** A consolidation that is due runs: if the number of messages stays the same between three ticks and the review
      is at rest in the second, a consolidation that has just been reset waits, is ready and has run. */
  lemma {:induction false} DueConsolidationRuns(s: Stages, one: Input, two: Input, three: Input)
    requires s.consolidation == 0
    requires var s1 := Check(s, one);
             && |s1.history| == s1.previousSize && s1.review == 100 && two.consolidationDue
             && var s2 := Check(s1, two); |s2.history| == s2.previousSize
    ensures Check(s, one).consolidation == 1 && Check(Check(s, one), two).consolidation == 2
    ensures Check(Check(Check(s, one), two), three).consolidation == 100
  {
    hide Check;
    FirstWaits(s, one);
    ConsolidatesOnlyWhenDue(Check(s, one), two);
    ConsolidatesOnlyWhenDue(Check(Check(s, one), two), three);
  }

  lemma {:induction false} FirstWaits(s: Stages, input: Input)
    requires s.consolidation == 0
    ensures Check(s, input).consolidation == 1
  {
    hide ClearContext, NoticeReply, Review;
    var s1 := Consolidate(PersistentChecks(NoticeActivity(s), input), input);
    ClearLeaves(s1, input);
    ReviewLeaves(ClearContext(s1, input), input);
  }

  /** The context is cleared by its own routine only in the tick after one that found it waiting and due, with the
      number of messages the same at the start of both. */
  lemma {:induction false} ClearsOnlyWhenDue(s: Stages, input: Input)
    ensures Check(s, input).clear == 2 <==> |s.history| == s.previousSize && s.clear == 1 && input.clearDue
    ensures s.clear <= 2 || s.clear == 100 ==>
              (Check(s, input).clear == 100 && s.clear != 100 <==> |s.history| == s.previousSize && s.clear == 2)
  {
    hide NoticeReply, Review;
    var s1 := Consolidate(PersistentChecks(NoticeActivity(s), input), input);
    ReviewLeaves(ClearContext(s1, input), input);
  }
}
