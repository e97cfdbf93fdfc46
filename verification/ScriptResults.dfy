/** Results of remote tools that arrive while a script runs: they are held back, and a [WAIT_FOR_RESULT] line
    takes the one it is for (the loop around the script machine in source/tools.cpp). */
module ScriptResults {
  import opened Options
  import opened Sequences
  import opened ScriptLines
  import opened ScriptMachine

  /** A result, with the number of results that arrived before it. */
  datatype Held = Held(number: nat, text: string)

  const WAIT_SECONDS: real := 30.0

  /** What the loop keeps beside the machine.  `mark` counts the results that had arrived when the last
      command was about to go out, `taken` are those that waits have taken. */
  datatype Keeper = Keeper(held: seq<Held>, baseline: nat, wait: Option<nat>, deadline: real,
                           arrivals: nat, mark: nat, taken: seq<Held>)

  function Nothing(): Keeper { Keeper([], 0, None, 0.0, 0, 0, []) }

  /** A command is about to go out: what is held by now is not for it. */
  function NoteCommand(k: Keeper): Keeper {
    k.(baseline := |k.held|, mark := k.arrivals)
  }

  function Collect(k: Keeper, texts: seq<string>): Keeper {
    if texts == [] then k
    else
      var before := Collect(k, texts[..|texts| - 1]);
      before.(held := before.held + [Held(before.arrivals, texts[|texts| - 1])], arrivals := before.arrivals + 1)
  }

  function Base(k: Keeper): nat { if k.wait.Some? then k.wait.value else k.baseline }

  /** One tick of a wait: it takes the first result that came after the command, or gives up after 30
      seconds, or goes on. */
  function WaitTick(k: Keeper, now: real): (Keeper, bool) {
    var base := Base(k);
    var deadline := if k.wait.Some? then k.deadline else now + WAIT_SECONDS;
    if |k.held| > base then
      (k.(held := k.held[..base] + k.held[base + 1..], taken := k.taken + [k.held[base]], wait := None, deadline := deadline), true)
    else if now >= deadline then (k.(wait := None, deadline := deadline), true)
    else (k.(wait := Some(base), deadline := deadline), false)
  }

  datatype Driver = Driver(m: Machine, k: Keeper)

  /** One turn of the whole loop, with the results that arrived since the last one. */
  function Turn(lines: seq<string>, number: string -> Number, d: Driver, t: Tick, texts: seq<string>): Driver
    requires d.m.state == WaitAsk ==> d.m.i < |lines|
  {
    var collected := Collect(if d.m.state == ExecuteCommand then NoteCommand(d.k) else d.k, texts);
    if d.m.state == WaitToolResult then
      var (k, over) := WaitTick(collected, t.now);
      Driver(Step(lines, number, d.m, t.(toolWaitOver := over)), k)
    else Driver(Step(lines, number, d.m, t), collected)
  }

  // ---- The program's form ----

  class ResultKeeper {
    var heldResults: seq<Held>
    var preCommandBaseline: nat
    var waitBaseline: nat
    var waitBaselineSet: bool
    var waitDeadline: real
    ghost var arrivals: nat
    ghost var mark: nat
    ghost var taken: seq<Held>

    ghost function View(): Keeper
      reads this
    {
      var wait := if waitBaselineSet then Some(waitBaseline) else None;
      Keeper(heldResults, preCommandBaseline, wait, waitDeadline, arrivals, mark, taken)
    }

    constructor ()
      ensures View() == Nothing()
    {
      heldResults, preCommandBaseline, waitBaseline, waitBaselineSet, waitDeadline := [], 0, 0, false, 0.0;
      arrivals, mark, taken := 0, 0, [];
    }

    method BeforeCommand()
      modifies this
      ensures View() == NoteCommand(old(View()))
    {
      preCommandBaseline := |heldResults|;
      mark := arrivals;
    }

    method Drain(results: seq<Held>, ghost texts: seq<string>)
      requires |results| == |texts|
      requires forall j :: 0 <= j < |results| ==> results[j] == Held(arrivals + j, texts[j])
      modifies this`heldResults, this`arrivals
      ensures View() == Collect(old(View()), texts)
    {
      ghost var before := View();
      for j := 0 to |results|
        invariant View() == Collect(before, texts[..j]) && arrivals == before.arrivals + j
      {
        assert texts[..j + 1][..j] == texts[..j];
        heldResults := heldResults + [results[j]];
        arrivals := arrivals + 1;
      }
      assert texts[..|texts|] == texts;
    }

    /** `got` is what is told to the model, nothing when the wait gave up or goes on. */
    method ResolveWait(now: real) returns (over: bool, got: Option<Held>)
      modifies this
      ensures (View(), over) == WaitTick(old(View()), now)
      ensures taken == old(taken) + (if got.Some? then [got.value] else []) && (got.Some? ==> over)
    {
      over, got := false, None;
      if !waitBaselineSet {
        waitBaseline := preCommandBaseline;
        waitBaselineSet := true;
        waitDeadline := now + WAIT_SECONDS;
      }
      if |heldResults| > waitBaseline {
        got := Some(heldResults[waitBaseline]);
        taken := taken + [heldResults[waitBaseline]];
        heldResults := heldResults[..waitBaseline] + heldResults[waitBaseline + 1..];
        over, waitBaselineSet := true, false;
      } else if now >= waitDeadline {
        over, waitBaselineSet := true, false;
      }
    }
  }

  // ---- A wait takes what it is for ----

  ghost predicate Has(items: seq<Held>, n: nat) {
    exists j :: 0 <= j < |items| && items[j].number == n
  }

  /** The backlog of earlier commands comes first and the rest arrived after the last command; each result
      is held or was taken, once. */
  ghost predicate Fine(k: Keeper) {
    && k.baseline <= |k.held| && (k.wait.Some? ==> k.wait.value == k.baseline) && k.mark <= k.arrivals
    && (forall i, j :: 0 <= i < j < |k.held| ==> k.held[i].number < k.held[j].number)
    && (forall j :: 0 <= j < |k.held| ==> (j < k.baseline <==> k.held[j].number < k.mark))
    && (forall n: nat :: n < k.arrivals <==> Has(k.held, n) || Has(k.taken, n))
    && (forall n: nat :: !(Has(k.held, n) && Has(k.taken, n)))
    && (forall i, j :: 0 <= i < j < |k.taken| ==> k.taken[i].number != k.taken[j].number)
  }

  lemma {:induction false} HasConcat(a: seq<Held>, b: seq<Held>, n: nat)
    ensures Has(a + b, n) <==> Has(a, n) || Has(b, n)
  {
    if Has(a, n) {
      var j :| 0 <= j < |a| && a[j].number == n;
      assert (a + b)[j] == a[j];
    }
    if Has(b, n) {
      var j :| 0 <= j < |b| && b[j].number == n;
      assert (a + b)[|a| + j] == b[j];
    }
  }

  lemma {:induction false} HasOne(h: Held, n: nat)
    ensures Has([h], n) <==> h.number == n
  {
    if h.number == n { assert [h][0].number == n; }
  }

  lemma {:induction false} HasIt(items: seq<Held>, j: nat)
    requires j < |items|
    ensures Has(items, items[j].number)
  {
  }

  lemma {:induction false} NoteKeepsFine(k: Keeper)
    requires Fine(k) && k.wait.None?
    ensures Fine(NoteCommand(k))
  {
    forall j | 0 <= j < |k.held| ensures k.held[j].number < k.arrivals { HasIt(k.held, j); }
    hide Has;
  }

  lemma {:induction false} OneKeepsFine(k: Keeper, text: string)
    requires Fine(k)
    ensures Fine(k.(held := k.held + [Held(k.arrivals, text)], arrivals := k.arrivals + 1))
  {
    var h := Held(k.arrivals, text);
    forall j | 0 <= j < |k.held| ensures k.held[j].number < k.arrivals { HasIt(k.held, j); }
    forall n: nat ensures Has(k.held + [h], n) <==> Has(k.held, n) || n == h.number {
      HasConcat(k.held, [h], n);
      HasOne(h, n);
    }
    hide Has;
  }

  lemma {:induction false} CollectKeepsFine(k: Keeper, texts: seq<string>)
    requires Fine(k)
    ensures Fine(Collect(k, texts)) && Collect(k, texts).wait == k.wait
  {
    if texts != [] {
      CollectKeepsFine(k, texts[..|texts| - 1]);
      OneKeepsFine(Collect(k, texts[..|texts| - 1]), texts[|texts| - 1]);
      hide Fine;
    }
  }

  lemma {:induction false} TakingKeepsFine(k: Keeper)
    requires Fine(k) && |k.held| > k.baseline
    ensures var b := k.baseline;
            Fine(k.(held := k.held[..b] + k.held[b + 1..], taken := k.taken + [k.held[b]], wait := None))
  {
    var b := k.baseline;
    var h := k.held[b];
    var left := k.held[..b] + k.held[b + 1..];
    forall n: nat
      ensures Has(k.taken + [h], n) <==> Has(k.taken, n) || n == h.number
      ensures Has(left, n) <==> Has(k.held, n) && n != h.number
    {
      HasConcat(k.taken, [h], n);
      HasOne(h, n);
      LeftHas(k.held, b, n);
    }
    HasIt(k.held, b);
    forall j | 0 <= j < |k.taken| ensures k.taken[j].number != h.number { HasIt(k.taken, j); }
    hide Has;
  }

  lemma {:induction false} LeftAt(items: seq<Held>, b: nat, j: nat)
    requires b < |items| && j < |items| - 1
    ensures (items[..b] + items[b + 1..])[j] == items[if j < b then j else j + 1]
  {
  }

  lemma {:induction false} LeftHas(items: seq<Held>, b: nat, n: nat)
    requires b < |items| && forall i, j :: 0 <= i < j < |items| ==> items[i].number < items[j].number
    ensures Has(items[..b] + items[b + 1..], n) <==> Has(items, n) && n != items[b].number
  {
    var left := items[..b] + items[b + 1..];
    if Has(left, n) {
      var j :| 0 <= j < |left| && left[j].number == n;
      LeftAt(items, b, j);
      HasIt(items, if j < b then j else j + 1);
    }
    if Has(items, n) && n != items[b].number {
      var j :| 0 <= j < |items| && items[j].number == n;
      var k := if j < b then j else j - 1;
      LeftAt(items, b, k);
      HasIt(left, k);
    }
  }

  /** A wait that ends with a result has taken the oldest one that arrived after its command, and the backlog
      of earlier commands is untouched. */
  lemma {:induction false} WaitTakesItsOwn(k: Keeper, now: real)
    requires Fine(k)
    ensures var (after, over) := WaitTick(k, now);
            && Fine(after) && (over ==> after.wait.None?)
            && after.held[..k.baseline] == k.held[..k.baseline] && after.baseline == k.baseline
            && (after.taken != k.taken ==>
                  (&& over && |after.taken| == |k.taken| + 1 && after.taken == k.taken + [after.taken[|k.taken|]]
                   && var got := after.taken[|k.taken|];
                      got in k.held && got.number >= k.mark
                      && forall j :: 0 <= j < |k.held| && k.held[j].number >= k.mark ==> got.number <= k.held[j].number))
            && (after.taken == k.taken ==> after.held == k.held)
  {
    if |k.held| > k.baseline { TakingKeepsFine(k); }
    hide Has;
  }

  lemma {:induction false} CollectKeepsDeadline(k: Keeper, texts: seq<string>)
    ensures var c := Collect(k, texts); c.deadline == k.deadline && c.wait == k.wait && c.baseline == k.baseline
  {
    if texts != [] { CollectKeepsDeadline(k, texts[..|texts| - 1]); }
  }

  // ---- Whole scripts ----

  ghost predicate Good(lines: seq<string>, number: string -> Number, d: Driver) {
    Inv(lines, number, d.m) && Fine(d.k) && (d.k.wait.Some? ==> d.m.state == WaitToolResult || d.m.state == Done)
  }

  lemma {:induction false} TurnKeepsGood(lines: seq<string>, number: string -> Number, d: Driver, t: Tick,
      texts: seq<string>)
    requires Good(lines, number, d)
    ensures Good(lines, number, Turn(lines, number, d, t, texts))
  {
    hide Fine, Control, AdvanceStep, RunTaskStep;
    WaitLine(lines, number, d.m);
    if d.m.state == ExecuteCommand { NoteKeepsFine(d.k); }
    var noted := if d.m.state == ExecuteCommand then NoteCommand(d.k) else d.k;
    CollectKeepsFine(noted, texts);
    var collected := Collect(noted, texts);
    StepKeepsInv(lines, number, d.m, t);
    DoneIsDone(lines, number, d.m, t);
    if d.m.state == WaitToolResult {
      WaitTakesItsOwn(collected, t.now);
      StepKeepsInv(lines, number, d.m, t.(toolWaitOver := WaitTick(collected, t.now).1));
      WaitFlag(collected, t.now);
    }
  }

  lemma {:induction false} WaitLine(lines: seq<string>, number: string -> Number, m: Machine)
    requires Inv(lines, number, m)
    ensures m.state == WaitAsk ==> m.i < |lines|
  {
  }

  lemma {:induction false} DoneIsDone(lines: seq<string>, number: string -> Number, m: Machine, t: Tick)
    requires Inv(lines, number, m)
    ensures m.state == Done ==> Step(lines, number, m, t).state == Done
  {
    hide GetCommandStep, WaitAskStep, IfAnswered;
  }

  lemma {:induction false} WaitFlag(k: Keeper, now: real)
    ensures var (after, over) := WaitTick(k, now); over == after.wait.None?
  {
  }

  ghost function RunTurns(lines: seq<string>, number: string -> Number, d: Driver, ticks: seq<Tick>,
      texts: seq<seq<string>>): Driver
    requires Good(lines, number, d) && |texts| == |ticks|
    ensures Good(lines, number, RunTurns(lines, number, d, ticks, texts))
    decreases |ticks|
  {
    if ticks == [] then d
    else
      TurnKeepsGood(lines, number, d, ticks[0], texts[0]);
      RunTurns(lines, number, Turn(lines, number, d, ticks[0], texts[0]), ticks[1..], texts[1..])
  }

  /** Every one of these ticks leaves the script waiting for a result. */
  ghost predicate StaysWaiting(lines: seq<string>, number: string -> Number, d: Driver, ticks: seq<Tick>,
      texts: seq<seq<string>>)
    requires Good(lines, number, d) && |texts| == |ticks|
    decreases |ticks|
  {
    ticks == [] ||
    (TurnKeepsGood(lines, number, d, ticks[0], texts[0]);
     var next := Turn(lines, number, d, ticks[0], texts[0]);
     next.m.state == WaitToolResult && StaysWaiting(lines, number, next, ticks[1..], texts[1..]))
  }

  /** A tick that leaves the script waiting came before the deadline, and leaves the deadline as it is. */
  lemma {:induction false} TickWaits(lines: seq<string>, number: string -> Number, d: Driver, t: Tick,
      texts: seq<string>)
    requires d.m.state == WaitToolResult && Turn(lines, number, d, t, texts).m.state == WaitToolResult
    ensures var next := Turn(lines, number, d, t, texts);
            && next.k.wait.Some?
            && next.k.deadline == (if d.k.wait.Some? then d.k.deadline else t.now + WAIT_SECONDS)
            && t.now < next.k.deadline
  {
    hide Collect, AdvanceStep;
    CollectKeepsDeadline(d.k, texts);
  }

  lemma {:induction false} WaitsBefore(lines: seq<string>, number: string -> Number, d: Driver, ticks: seq<Tick>,
      texts: seq<seq<string>>)
    requires Good(lines, number, d) && |texts| == |ticks| && StaysWaiting(lines, number, d, ticks, texts)
    requires d.m.state == WaitToolResult && d.k.wait.Some?
    ensures forall j :: 0 <= j < |ticks| ==> ticks[j].now < d.k.deadline
    decreases |ticks|
  {
    if ticks != [] {
      TurnKeepsGood(lines, number, d, ticks[0], texts[0]);
      TickWaits(lines, number, d, ticks[0], texts[0]);
      var next := Turn(lines, number, d, ticks[0], texts[0]);
      hide Turn, Inv, Fine;
      WaitsBefore(lines, number, next, ticks[1..], texts[1..]);
      forall j | 0 <= j < |ticks| ensures ticks[j].now < d.k.deadline {
        if j > 0 { assert ticks[j] == ticks[1..][j - 1]; }
      }
    }
  }

  /** No wait outlives its 30 seconds: however many ticks it has lasted and whatever has arrived, a tick that
      leaves the script waiting came less than 30 seconds after the wait's first tick. */
  lemma {:induction false} WaitEnds(lines: seq<string>, number: string -> Number, d: Driver, ticks: seq<Tick>,
      texts: seq<seq<string>>)
    requires Good(lines, number, d) && |texts| == |ticks| && StaysWaiting(lines, number, d, ticks, texts)
    requires d.m.state == WaitToolResult && d.k.wait.None? && ticks != []
    ensures forall j :: 0 <= j < |ticks| ==> ticks[j].now < ticks[0].now + 30.0
  {
    TurnKeepsGood(lines, number, d, ticks[0], texts[0]);
    TickWaits(lines, number, d, ticks[0], texts[0]);
    var next := Turn(lines, number, d, ticks[0], texts[0]);
    hide Turn, Inv, Fine;
    WaitsBefore(lines, number, next, ticks[1..], texts[1..]);
    forall j | 0 <= j < |ticks| ensures ticks[j].now < ticks[0].now + WAIT_SECONDS {
      if j > 0 { assert ticks[j] == ticks[1..][j - 1]; }
    }
  }

  /** A wait gives up without a result only so late: on no tick less than 30 seconds after its first one. */
  lemma {:induction false} WaitIsKept(lines: seq<string>, number: string -> Number, d: Driver, ticks: seq<Tick>,
      texts: seq<seq<string>>, last: Tick, lastTexts: seq<string>)
    requires Good(lines, number, d) && |texts| == |ticks| && StaysWaiting(lines, number, d, ticks, texts)
    requires d.m.state == WaitToolResult && d.k.wait.None? && !last.exitRequested
    ensures var waiting := RunTurns(lines, number, d, ticks, texts);
            var next := Turn(lines, number, waiting, last, lastTexts);
            next.m.state != WaitToolResult && |next.k.taken| == |waiting.k.taken| ==>
              ticks != [] && last.now >= ticks[0].now + 30.0
  {
    var waiting := RunTurns(lines, number, d, ticks, texts);
    WaitsOn(lines, number, d, ticks, texts);
    hide RunTurns, StaysWaiting, Inv, Fine;
    GivesUp(lines, number, waiting, last, lastTexts);
  }

  /** What a wait is after some ticks. */
  lemma {:induction false} WaitsOn(lines: seq<string>, number: string -> Number, d: Driver, ticks: seq<Tick>,
      texts: seq<seq<string>>)
    requires Good(lines, number, d) && |texts| == |ticks| && StaysWaiting(lines, number, d, ticks, texts)
    requires d.m.state == WaitToolResult
    ensures var end := RunTurns(lines, number, d, ticks, texts);
            && end.m.state == WaitToolResult
            && (ticks == [] ==> end == d)
            && (ticks != [] ==> end.k.wait.Some?)
            && (ticks != [] ==> end.k.deadline == if d.k.wait.Some? then d.k.deadline else ticks[0].now + WAIT_SECONDS)
    decreases |ticks|
  {
    if ticks != [] {
      TurnKeepsGood(lines, number, d, ticks[0], texts[0]);
      TickWaits(lines, number, d, ticks[0], texts[0]);
      var next := Turn(lines, number, d, ticks[0], texts[0]);
      hide Turn, Inv, Fine;
      WaitsOn(lines, number, next, ticks[1..], texts[1..]);
    }
  }

  lemma {:induction false} GivesUp(lines: seq<string>, number: string -> Number, d: Driver, t: Tick, texts: seq<string>)
    requires d.m.state == WaitToolResult && !t.exitRequested
    ensures var next := Turn(lines, number, d, t, texts);
            next.m.state != WaitToolResult && |next.k.taken| == |d.k.taken| ==> d.k.wait.Some? && t.now >= d.k.deadline
  {
    hide Collect, AdvanceStep;
    CollectKeepsDeadline(d.k, texts);
    CollectTakesNothing(d.k, texts);
  }

  lemma {:induction false} CollectTakesNothing(k: Keeper, texts: seq<string>)
    ensures Collect(k, texts).taken == k.taken
  {
    if texts != [] { CollectTakesNothing(k, texts[..|texts| - 1]); }
  }

  /** In every run of every script, each result that has arrived was taken by one wait or is still held to be
      told at the end, never both and never twice. */
  lemma {:induction false} NoResultIsLost(lines: seq<string>, number: string -> Number, keyboard: bool, tts: bool,
      echo: bool,
                                          ticks: seq<Tick>, texts: seq<seq<string>>, n: nat)
    requires |texts| == |ticks|
    ensures Good(lines, number, Driver(Start(keyboard, tts, echo), Nothing()))
    ensures var k := RunTurns(lines, number, Driver(Start(keyboard, tts, echo), Nothing()), ticks, texts).k;
            && (n < k.arrivals <==> Has(k.held, n) || Has(k.taken, n))
            && !(Has(k.held, n) && Has(k.taken, n))
            && (forall i, j :: 0 <= i < j < |k.held| ==> k.held[i].number < k.held[j].number)
            && (forall i, j :: 0 <= i < j < |k.taken| ==> k.taken[i].number != k.taken[j].number)
  {
    hide Turn, Control, Has;
    StartFine(lines, number, keyboard, tts, echo);
  }

  lemma {:induction false} StartFine(lines: seq<string>, number: string -> Number, keyboard: bool, tts: bool, echo: bool)
    ensures Good(lines, number, Driver(Start(keyboard, tts, echo), Nothing()))
  {
    StartIsFine(lines, number, keyboard, tts, echo);
    hide Control;
  }
}
