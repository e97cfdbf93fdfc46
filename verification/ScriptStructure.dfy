/** Scripts that are the printed form of a structured program, and the proof that the machine, which only
    scans lines forward and moves an index, runs them the way the structure says. */
module ScriptStructure {
  import opened Options
  import opened Sequences
  import opened ScriptLines
  import opened ScriptMachine
  import opened ScriptFlow
  import opened ScriptWalk

  // ---- Structured programs ----

  datatype Block = Empty | Then(first: Stmt, rest: Block)

  /** A `Line` may be any line that is no part of an [IF] block and no edge of a sub. */
  datatype Stmt = Line(text: string) | Choice(question: string, yes: Block, others: Branches, close: string)

  /** The [ELSE] and [MAYBE] parts of a block, in any number and order. */
  datatype Branches = NoMore | Branch(marker: string, body: Block, more: Branches)

  datatype Program =
    | Finish
    | Main(body: Block, rest: Program)
    | SubDef(header: string, body: Block, close: string, rest: Program)

  predicate GoodBlock(b: Block) {
    b.Then? ==> GoodStmt(b.first) && GoodBlock(b.rest)
  }

  predicate GoodStmt(s: Stmt) {
    match s
    case Line(text) => MarkOf(text) == NoMark
    case Choice(question, yes, others, close) =>
      MarkOf(question) == IfMark && GoodBlock(yes) && GoodBranches(others) && MarkOf(close) == EndifMark
  }

  predicate GoodBranches(bs: Branches) {
    bs.Branch? ==>
      (MarkOf(bs.marker) == ElseMark || MarkOf(bs.marker) == MaybeMark) && GoodBlock(bs.body) && GoodBranches(bs.more)
  }

  predicate GoodProgram(p: Program) {
    match p
    case Finish => true
    case Main(body, rest) => GoodBlock(body) && !rest.Main? && GoodProgram(rest)
    case SubDef(header, body, close, rest) =>
      Classify(header) == Sub && GoodBlock(body) && StartsWith(close, "[endsub]") && GoodProgram(rest)
  }

  function PrintBlock(b: Block): seq<string> {
    match b
    case Empty => []
    case Then(first, rest) => PrintStmt(first) + PrintBlock(rest)
  }

  function PrintStmt(s: Stmt): (lines: seq<string>)
    ensures |lines| > 0
  {
    match s
    case Line(text) => [text]
    case Choice(question, yes, others, close) => [question] + (PrintBlock(yes) + (PrintBranches(others) + [close]))
  }

  function PrintBranches(bs: Branches): seq<string> {
    match bs
    case NoMore => []
    case Branch(marker, body, more) => [marker] + (PrintBlock(body) + PrintBranches(more))
  }

  function PrintProgram(p: Program): seq<string> {
    match p
    case Finish => []
    case Main(body, rest) => PrintBlock(body) + PrintProgram(rest)
    case SubDef(header, body, close, rest) => [header] + (PrintBlock(body) + ([close] + PrintProgram(rest)))
  }

  // ---- What they mean ----

  datatype How = Normal | Returned | Stopped(ending: Ending)

  datatype Result = Result(lines: seq<string>, pos: nat, how: How)

  /** A program with what its [ASK] numbers read as and the replies it gets, one after the other. */
  datatype World = World(program: Program, number: string -> Number, replies: nat -> Reply)

  function SubOf(p: Program, name: string): Option<Block> {
    match p
    case Finish => None
    case Main(_, rest) => SubOf(rest, name)
    case SubDef(header, body, _, rest) => if header == SubHeader(name) then Some(body) else SubOf(rest, name)
  }

  /** How a line that calls nothing ends. */
  function HowLineEnds(number: string -> Number, text: string, depth: nat, run: RunOutcome): (how: How)
    ensures how.Returned? ==> depth > 0
  {
    match Classify(text)
    case End => Stopped(EndCommand)
    case Return => if depth == 0 then Stopped(Failed(NothingToReturn)) else Returned
    case Ask => if ParseAsk(text, number).None? then Stopped(Failed(BadAsk)) else Normal
    case Run => HowRunEnds(text, run)
    case _ => Normal
  }

  function HowRunEnds(text: string, run: RunOutcome): (how: How)
    ensures !how.Returned?
  {
    if |text| <= 6 then Stopped(Failed(EmptyRun))
    else match run
      case NotKnown => Stopped(Failed(UnknownTask))
      case NestedTooDeep => Stopped(Failed(RunTooDeep))
      case Finished => Normal
  }

  /** The reply behind the one a line uses, if it uses one. */
  function Used(text: string, pos: nat): nat {
    if Consumes(Classify(text)) then pos + 1 else pos
  }

  /** An [ASK] whose time limit passes before anything is entered. */
  predicate IsLate(w: World, s: Stmt, pos: nat) {
    && s.Line? && Classify(s.text) == Ask && w.replies(pos).late
    && var header := ParseAsk(s.text, w.number); header.Some? && header.value.limit.Some?
  }

  /** An unanswered [ASK] takes the question about its answer with it. */
  function WithoutQuestion(b: Block): Block {
    if b.Then? && b.first.Choice? then b.rest else b
  }

  function AfterCall(text: string, r: Result): Result {
    Result([text] + r.lines, r.pos, if r.how.Stopped? then r.how else Normal)
  }

  function ExecBlock(w: World, b: Block, depth: nat, pos: nat): (r: Result)
    requires depth <= MAX_GOSUB_DEPTH
    ensures r.how.Returned? ==> depth > 0
    decreases MAX_GOSUB_DEPTH - depth, 1, b
  {
    match b
    case Empty => Result([], pos, Normal)
    case Then(first, rest) =>
      var late := IsLate(w, first, pos);
      var r := if late then ExecLate(w, first.text, depth, pos) else ExecStmt(w, first, depth, pos);
      if r.how != Normal then r
      else
        var more := ExecBlock(w, if late then WithoutQuestion(rest) else rest, depth, r.pos);
        Result(r.lines + more.lines, more.pos, more.how)
  }

  /** A call of a sub, from the line that names it. */
  function ExecCall(w: World, text: string, name: string, depth: nat, pos: nat): (r: Result)
    requires depth <= MAX_GOSUB_DEPTH
    ensures !r.how.Returned?
    decreases MAX_GOSUB_DEPTH - depth, 0, 0
  {
    var sub := SubOf(w.program, name);
    if sub.None? then Result([text], pos, Stopped(Failed(NoSuchSub(name))))
    else if depth >= MAX_GOSUB_DEPTH then Result([text], pos, Stopped(Failed(TooDeep)))
    else AfterCall(text, ExecBlock(w, sub.value, depth + 1, pos))
  }

  /** The limit ends the script, or calls the sub named for it. */
  function ExecLate(w: World, text: string, depth: nat, pos: nat): (r: Result)
    requires depth <= MAX_GOSUB_DEPTH && ParseAsk(text, w.number).Some?
    ensures !r.how.Returned?
    decreases MAX_GOSUB_DEPTH - depth, 0, 1
  {
    var name := ParseAsk(text, w.number).value.name;
    if name == "" then Result([text], pos + 1, Stopped(EndCommand)) else ExecCall(w, text, name, depth, pos + 1)
  }

  function ExecStmt(w: World, s: Stmt, depth: nat, pos: nat): (r: Result)
    requires depth <= MAX_GOSUB_DEPTH
    ensures r.how.Returned? ==> depth > 0
    decreases MAX_GOSUB_DEPTH - depth, 1, s
  {
    match s
    case Line(text) =>
      if Classify(text).Gosub? then ExecCall(w, text, Classify(text).name, depth, pos)
      else Result([text], Used(text, pos), HowLineEnds(w.number, text, depth, w.replies(pos).run))
    case Choice(question, yes, others, _) =>
      var answer := w.replies(pos).answer;
      var r := if answer == 1 then ExecBlock(w, yes, depth, pos + 1)
               else ExecBranches(w, others, if answer == -1 then ElseMark else MaybeMark, depth, pos + 1);
      Result([question] + r.lines, r.pos, r.how)
  }

  /** Runs the first branch of the wanted kind, if there is one. */
  function ExecBranches(w: World, bs: Branches, wanted: Mark, depth: nat, pos: nat): (r: Result)
    requires depth <= MAX_GOSUB_DEPTH
    ensures r.how.Returned? ==> depth > 0
    decreases MAX_GOSUB_DEPTH - depth, 1, bs
  {
    match bs
    case NoMore => Result([], pos, Normal)
    case Branch(marker, body, more) =>
      if MarkOf(marker) == wanted then ExecBlock(w, body, depth, pos) else ExecBranches(w, more, wanted, depth, pos)
  }

  /** The lines a program executes and why it ends; subs only run when called. */
  function ExecProgram(w: World, p: Program, pos: nat): Walk {
    match p
    case Finish => Walk([], EndOfScript)
    case Main(body, rest) =>
      var r := ExecBlock(w, body, 0, pos);
      if r.how.Stopped? then Walk(r.lines, r.how.ending)
      else Before(r.lines, ExecProgram(w, rest, r.pos))
    case SubDef(_, _, _, rest) => ExecProgram(w, rest, pos)
  }

  function Before(lines: seq<string>, walk: Walk): Walk {
    Walk(lines + walk.all, walk.ending)
  }

  // ---- Segments of the printed lines ----

  ghost predicate Holds(all: seq<string>, i: nat, part: seq<string>) {
    i + |part| <= |all| && all[i..i + |part|] == part
  }

  lemma {:induction false} HoldsBoth(all: seq<string>, i: nat, a: seq<string>, b: seq<string>)
    requires Holds(all, i, a + b)
    ensures Holds(all, i, a) && Holds(all, i + |a|, b) && i + |a| + |b| <= |all|
  {
    assert all[i..i + |a|] == all[i..i + |a + b|][..|a|] == (a + b)[..|a|] == a;
    assert all[i + |a|..i + |a| + |b|] == all[i..i + |a + b|][|a|..] == (a + b)[|a|..] == b;
  }

  lemma {:induction false} HoldsOne(all: seq<string>, i: nat, line: string)
    requires Holds(all, i, [line])
    ensures i < |all| && all[i] == line
  {
    assert all[i..i + 1][0] == all[i];
  }

  lemma {:induction false} HoldsFirst(all: seq<string>, i: nat, line: string, rest: seq<string>)
    requires Holds(all, i, [line] + rest)
    ensures i < |all| && all[i] == line && Holds(all, i + 1, rest) && i + 1 + |rest| <= |all|
  {
    HoldsBoth(all, i, [line], rest);
    HoldsOne(all, i, line);
  }

  // ---- The scans skip printed blocks ----

  lemma {:induction false} SkipLine(all: seq<string>, i: nat, depth: nat, wanted: Mark)
    requires i < |all| && MarkOf(all[i]) != SubEdge && (wanted == ElseMark || wanted == MaybeMark)
    ensures MarkOf(all[i]) == IfMark ==>
              (EndifFrom(all, i, depth) == EndifFrom(all, i + 1, depth + 1)
               && BranchFrom(all, i, depth, wanted) == BranchFrom(all, i + 1, depth + 1, wanted))
    ensures MarkOf(all[i]) == EndifMark && depth > 0 ==>
              (EndifFrom(all, i, depth) == EndifFrom(all, i + 1, depth - 1)
               && BranchFrom(all, i, depth, wanted) == BranchFrom(all, i + 1, depth - 1, wanted))
    ensures MarkOf(all[i]) == EndifMark && depth == 0 ==> EndifFrom(all, i, 0) == i && BranchFrom(all, i, 0, wanted) == i
    ensures MarkOf(all[i]) == NoMark || MarkOf(all[i]) == ElseMark || MarkOf(all[i]) == MaybeMark ==>
              (EndifFrom(all, i, depth) == EndifFrom(all, i + 1, depth)
               && BranchFrom(all, i, depth, wanted)
                  == if depth == 0 && MarkOf(all[i]) == wanted then i + 1 else BranchFrom(all, i + 1, depth, wanted))
  {
    hide MarkOf;
  }

  ghost predicate Skips(all: seq<string>, i: nat, j: nat, depth: nat, wanted: Mark) {
    EndifFrom(all, i, depth) == EndifFrom(all, j, depth) && BranchFrom(all, i, depth, wanted) == BranchFrom(all, j, depth, wanted)
  }

  lemma {:induction false} SkipBlock(all: seq<string>, i: nat, b: Block, depth: nat, wanted: Mark)
    requires GoodBlock(b) && Holds(all, i, PrintBlock(b)) && (wanted == ElseMark || wanted == MaybeMark)
    ensures Skips(all, i, i + |PrintBlock(b)|, depth, wanted)
    decreases b
  {
    hide Holds, MarkOf, EndifFrom, BranchFrom;
    if b.Then? {
      HoldsBoth(all, i, PrintStmt(b.first), PrintBlock(b.rest));
      SkipStmt(all, i, b.first, depth, wanted);
      SkipBlock(all, i + |PrintStmt(b.first)|, b.rest, depth, wanted);
    }
  }

  lemma {:induction false} SkipStmt(all: seq<string>, i: nat, s: Stmt, depth: nat, wanted: Mark)
    requires GoodStmt(s) && Holds(all, i, PrintStmt(s)) && (wanted == ElseMark || wanted == MaybeMark)
    ensures Skips(all, i, i + |PrintStmt(s)|, depth, wanted)
    decreases s
  {
    hide Holds, MarkOf, EndifFrom, BranchFrom;
    match s
    case Line(text) =>
      HoldsOne(all, i, text);
      SkipLine(all, i, depth, wanted);
    case Choice(question, yes, others, close) =>
      var j := ChoiceParts(all, i, s);
      SkipLine(all, i, depth, wanted);
      SkipBlock(all, i + 1, yes, depth + 1, wanted);
      SkipBranches(all, i + 1 + |PrintBlock(yes)|, others, depth + 1, wanted);
      SkipLine(all, j, depth + 1, wanted);
  }

  /** Inside an [IF] block of its own, a block's branches are passed over; a scan for the end passes over
      them at every depth. */
  lemma {:induction false} SkipBranches(all: seq<string>, i: nat, bs: Branches, depth: nat, wanted: Mark)
    requires GoodBranches(bs) && Holds(all, i, PrintBranches(bs)) && (wanted == ElseMark || wanted == MaybeMark)
    ensures EndifFrom(all, i, depth) == EndifFrom(all, i + |PrintBranches(bs)|, depth)
    ensures depth > 0 ==> Skips(all, i, i + |PrintBranches(bs)|, depth, wanted)
    decreases bs
  {
    hide Holds, MarkOf, EndifFrom, BranchFrom;
    if bs.Branch? {
      HoldsFirst(all, i, bs.marker, PrintBlock(bs.body) + PrintBranches(bs.more));
      HoldsBoth(all, i + 1, PrintBlock(bs.body), PrintBranches(bs.more));
      SkipLine(all, i, depth, wanted);
      SkipBlock(all, i + 1, bs.body, depth, wanted);
      SkipBranches(all, i + 1 + |PrintBlock(bs.body)|, bs.more, depth, wanted);
    }
  }

  /** Where the parts of a printed [IF] block are; `j` is its [ENDIF]. */
  lemma {:induction false} ChoiceParts(all: seq<string>, i: nat, s: Stmt) returns (j: nat)
    requires s.Choice? && Holds(all, i, PrintStmt(s))
    ensures i < |all| && all[i] == s.question
    ensures Holds(all, i + 1, PrintBlock(s.yes))
    ensures Holds(all, i + 1 + |PrintBlock(s.yes)|, PrintBranches(s.others))
    ensures j == i + 1 + |PrintBlock(s.yes)| + |PrintBranches(s.others)| < |all| && all[j] == s.close
    ensures i + |PrintStmt(s)| == j + 1
  {
    hide Holds, PrintBlock, PrintBranches;
    HoldsFirst(all, i, s.question, PrintBlock(s.yes) + (PrintBranches(s.others) + [s.close]));
    HoldsBoth(all, i + 1, PrintBlock(s.yes), PrintBranches(s.others) + [s.close]);
    j := i + 1 + |PrintBlock(s.yes)| + |PrintBranches(s.others)|;
    HoldsBoth(all, i + 1 + |PrintBlock(s.yes)|, PrintBranches(s.others), [s.close]);
    HoldsOne(all, j, s.close);
  }

  // ---- Where subs are ----

  ghost predicate Passes(all: seq<string>, i: nat, j: nat, name: string) {
    SubFrom(all, i, name) == SubFrom(all, j, name) && EndsubFrom(all, i) == EndsubFrom(all, j)
  }

  lemma {:induction false} SubHeaderIsAnEdge(name: string)
    ensures MarkOf(SubHeader(name)) == SubEdge
    ensures !StartsWith(SubHeader(name), "[endsub]")
  {
    var line := "[SUB:" + name + "]";
    assert line[0] == '[' && line[1] == 'S' && line[2] == 'U' && line[3] == 'B' && line[4] == ':';
    assert LowerChar(line[1]) == 's' && "[endsub]"[1] == 'e';
    assert StartsWith(line, "[sub:");
  }

  lemma {:induction false} PassLine(all: seq<string>, i: nat, name: string)
    requires i < |all| && MarkOf(all[i]) != SubEdge
    ensures Passes(all, i, i + 1, name)
  {
    SubHeaderIsAnEdge(name);
    hide StartsWith;
  }

  lemma {:induction false} PassBlock(all: seq<string>, i: nat, b: Block, name: string)
    requires GoodBlock(b) && Holds(all, i, PrintBlock(b))
    ensures Passes(all, i, i + |PrintBlock(b)|, name)
    decreases b
  {
    hide Holds, MarkOf, SubFrom, EndsubFrom;
    if b.Then? {
      HoldsBoth(all, i, PrintStmt(b.first), PrintBlock(b.rest));
      PassStmt(all, i, b.first, name);
      PassBlock(all, i + |PrintStmt(b.first)|, b.rest, name);
    }
  }

  lemma {:induction false} PassStmt(all: seq<string>, i: nat, s: Stmt, name: string)
    requires GoodStmt(s) && Holds(all, i, PrintStmt(s))
    ensures Passes(all, i, i + |PrintStmt(s)|, name)
    decreases s
  {
    hide Holds, MarkOf, SubFrom, EndsubFrom;
    match s
    case Line(text) =>
      HoldsOne(all, i, text);
      PassLine(all, i, name);
    case Choice(question, yes, others, close) =>
      var j := ChoiceParts(all, i, s);
      PassLine(all, i, name);
      PassBlock(all, i + 1, yes, name);
      PassBranches(all, i + 1 + |PrintBlock(yes)|, others, name);
      PassLine(all, j, name);
  }

  lemma {:induction false} PassBranches(all: seq<string>, i: nat, bs: Branches, name: string)
    requires GoodBranches(bs) && Holds(all, i, PrintBranches(bs))
    ensures Passes(all, i, i + |PrintBranches(bs)|, name)
    decreases bs
  {
    hide Holds, MarkOf, SubFrom, EndsubFrom;
    if bs.Branch? {
      HoldsFirst(all, i, bs.marker, PrintBlock(bs.body) + PrintBranches(bs.more));
      HoldsBoth(all, i + 1, PrintBlock(bs.body), PrintBranches(bs.more));
      PassLine(all, i, name);
      PassBlock(all, i + 1, bs.body, name);
      PassBranches(all, i + 1 + |PrintBlock(bs.body)|, bs.more, name);
    }
  }

  /** Where the parts of a printed sub are; `j` is its [ENDSUB]. */
  lemma {:induction false} SubParts(all: seq<string>, i: nat, p: Program) returns (j: nat)
    requires p.SubDef? && Holds(all, i, PrintProgram(p))
    ensures i < |all| && all[i] == p.header
    ensures Holds(all, i + 1, PrintBlock(p.body))
    ensures j == i + 1 + |PrintBlock(p.body)| < |all| && all[j] == p.close
    ensures Holds(all, j + 1, PrintProgram(p.rest)) && i + |PrintProgram(p)| == j + 1 + |PrintProgram(p.rest)|
  {
    hide Holds, PrintBlock;
    HoldsFirst(all, i, p.header, PrintBlock(p.body) + ([p.close] + PrintProgram(p.rest)));
    HoldsBoth(all, i + 1, PrintBlock(p.body), [p.close] + PrintProgram(p.rest));
    j := i + 1 + |PrintBlock(p.body)|;
    HoldsFirst(all, j, p.close, PrintProgram(p.rest));
  }

  /** `k` is the header of a sub with this body. */
  ghost predicate IsSubAt(all: seq<string>, k: nat, body: Block) {
    && GoodBlock(body)
    && Holds(all, k + 1, PrintBlock(body))
    && k + 1 + |PrintBlock(body)| < |all|
    && StartsWith(all[k + 1 + |PrintBlock(body)|], "[endsub]")
  }

  lemma {:induction false} SubLinesDiffer(all: seq<string>, i: nat, name: string)
    requires i < |all|
    ensures StartsWith(all[i], "[endsub]") ==> SubFrom(all, i, name) == SubFrom(all, i + 1, name) && EndsubFrom(all, i) == i
    ensures Classify(all[i]) == Sub ==> EndsubFrom(all, i) == EndsubFrom(all, i + 1)
    ensures SubFrom(all, i, name) == if all[i] == SubHeader(name) then i else SubFrom(all, i + 1, name)
  {
    SubHeaderIsAnEdge(name);
    if StartsWith(all[i], "[endsub]") { EndsubLine(all[i]); }
    hide StartsWith, Classify;
  }

  /** At a printed sub: it is found under its name, and a search for another name goes on behind it. */
  lemma {:induction false} SubIsHere(all: seq<string>, i: nat, p: Program, name: string) returns (j: nat)
    requires p.SubDef? && GoodProgram(p) && Holds(all, i, PrintProgram(p))
    ensures j + 1 + |PrintProgram(p.rest)| == i + |PrintProgram(p)| && Holds(all, j + 1, PrintProgram(p.rest))
    ensures i < |all| && all[i] == p.header && IsSubAt(all, i, p.body)
    ensures SubFrom(all, i, name) == if p.header == SubHeader(name) then i else SubFrom(all, j + 1, name)
    ensures EndsubFrom(all, i + 1) == j == i + 1 + |PrintBlock(p.body)| < |all|
  {
    hide Holds, SubFrom, EndsubFrom, PrintBlock, StartsWith, Classify;
    j := SubParts(all, i, p);
    SubLinesDiffer(all, i, name);
    PassBlock(all, i + 1, p.body, name);
    SubLinesDiffer(all, j, name);
  }

  lemma {:induction false} MainParts(all: seq<string>, i: nat, p: Program)
    requires p.Main? && Holds(all, i, PrintProgram(p))
    ensures Holds(all, i, PrintBlock(p.body)) && Holds(all, i + |PrintBlock(p.body)|, PrintProgram(p.rest))
    ensures i + |PrintProgram(p)| == i + |PrintBlock(p.body)| + |PrintProgram(p.rest)| <= |all|
  {
    HoldsBoth(all, i, PrintBlock(p.body), PrintProgram(p.rest));
    hide Holds, PrintBlock;
  }

  /** The search for a sub finds the sub the structure has under that name. */
  lemma {:induction false} SubIsFound(all: seq<string>, i: nat, p: Program, name: string)
    requires GoodProgram(p) && Holds(all, i, PrintProgram(p)) && i + |PrintProgram(p)| == |all|
    ensures match SubOf(p, name)
            case None => SubFrom(all, i, name) == |all|
            case Some(body) => SubFrom(all, i, name) < |all| && IsSubAt(all, SubFrom(all, i, name), body)
    decreases p
  {
    hide GoodBlock, StartsWith, Classify;
    match p
    case Finish =>
      hide Holds, IsSubAt, SubHeader;
    case Main(body, rest) =>
      hide Holds, SubFrom, EndsubFrom, PrintBlock, PrintProgram, IsSubAt, SubHeader;
      MainParts(all, i, p);
      PassBlock(all, i, body, name);
      SubIsFound(all, i + |PrintBlock(body)|, rest, name);
    case SubDef(header, body, close, rest) =>
      hide Holds, SubFrom, EndsubFrom, PrintBlock, PrintProgram, IsSubAt, SubHeader;
      var j := SubIsHere(all, i, p, name);
      SubIsFound(all, j + 1, rest, name);
  }

  // ---- What a walk shows ----

  /** Lines that mark the parts of [IF] blocks and subs do nothing of their own. */
  function VisibleLine(line: string): seq<string> {
    if MarkOf(line) == NoMark || MarkOf(line) == IfMark then [line] else []
  }

  function Visible(lines: seq<string>): seq<string> {
    if lines == [] then [] else VisibleLine(lines[0]) + Visible(lines[1..])
  }

  ghost function Seen(w: World, all: seq<string>, i: nat, stack: seq<nat>, pos: nat): Walk
    requires InScript(|all|, i, stack)
  {
    var walk := WalkFrom(all, w.number, i, stack, w.replies, pos);
    Walk(Visible(walk.all), walk.ending)
  }

  lemma {:induction false} VisibleFirst(line: string, rest: seq<string>)
    ensures Visible([line] + rest) == VisibleLine(line) + Visible(rest)
  {
    assert ([line] + rest)[1..] == rest;
    hide VisibleLine;
  }

  /** The step of one line, as far as it shows. */
  lemma {:induction false} SeenStep(w: World, all: seq<string>, i: nat, stack: seq<nat>, pos: nat)
    requires InScript(|all|, i, stack) && i < |all|
    ensures match NextOf(all, w.number, i, stack, w.replies(pos))
            case Halt(ending) => Seen(w, all, i, stack, pos) == Walk(VisibleLine(all[i]), ending)
            case Go(j, s) =>
              && InScript(|all|, j, s)
              && Seen(w, all, i, stack, pos)
                 == Before(VisibleLine(all[i]), Seen(w, all, j, s, NextPos(all, i, pos)))
  {
    WalkUnfolds(all, w.number, i, stack, w.replies, pos);
    hide NextOf, InScript, Classify, WalkFrom, VisibleLine, Visible;
    match NextOf(all, w.number, i, stack, w.replies(pos))
    case Halt(_) =>
      ConcatNothing([all[i]]);
      VisibleFirst(all[i], []);
      VisibleNothing();
      ConcatNothing(VisibleLine(all[i]));
    case Go(j, s) =>
      VisibleFirst(all[i], WalkFrom(all, w.number, j, s, w.replies, NextPos(all, i, pos)).all);
  }

  lemma {:induction false} VisibleNothing()
    ensures Visible([]) == []
  {
  }

  lemma {:induction false} SeenAtEnd(w: World, all: seq<string>, pos: nat)
    requires InScript(|all|, |all|, [])
    ensures Seen(w, all, |all|, [], pos) == Walk([], EndOfScript)
  {
  }

  lemma {:induction false} BeforeBefore(a: seq<string>, b: seq<string>, walk: Walk)
    ensures Before(a, Before(b, walk)) == Before(a + b, walk)
  {
    ConcatAssociates(a, b, walk.all);
  }

  lemma {:induction false} BeforeNothing(walk: Walk)
    ensures Before([], walk) == walk
  {
    NothingConcat(walk.all);
  }

  // ---- The machine's way is the structure's ----

  ghost predicate Setting(w: World, all: seq<string>) {
    GoodProgram(w.program) && all == PrintProgram(w.program)
  }

  /** Where a part that ends this way goes on. */
  ghost function Rest(w: World, all: seq<string>, how: How, j: nat, stack: seq<nat>, pos: nat): Walk
    requires InScript(|all|, j, stack) && (how.Returned? ==> stack != [])
  {
    match how
    case Normal => Seen(w, all, j, stack, pos)
    case Returned => Seen(w, all, stack[|stack| - 1], stack[..|stack| - 1], pos)
    case Stopped(ending) => Walk([], ending)
  }

  /** What shows from `i` on is what the part shows, and then what shows behind it. */
  ghost predicate Runs(w: World, all: seq<string>, i: nat, j: nat, stack: seq<nat>, pos: nat, r: Result) {
    && InScript(|all|, i, stack) && InScript(|all|, j, stack) && (r.how.Returned? ==> stack != [])
    && Seen(w, all, i, stack, pos) == Before(r.lines, Rest(w, all, r.how, j, stack, r.pos))
  }

  lemma {:induction false} RunsInTurn(w: World, all: seq<string>, i: nat, j: nat, k: nat, stack: seq<nat>, pos: nat,
      a: Result, b: Result)
    requires Runs(w, all, i, j, stack, pos, a) && a.how == Normal && Runs(w, all, j, k, stack, a.pos, b)
    ensures Runs(w, all, i, k, stack, pos, Result(a.lines + b.lines, b.pos, b.how))
  {
    hide Seen, InScript, Before;
    BeforeBefore(a.lines, b.lines, Rest(w, all, b.how, k, stack, b.pos));
  }

  /** A part that does not end normally ends all it is part of. */
  lemma {:induction false} RunsAnywhere(w: World, all: seq<string>, i: nat, j: nat, k: nat, stack: seq<nat>,
      pos: nat, a: Result)
    requires Runs(w, all, i, j, stack, pos, a) && a.how != Normal && InScript(|all|, k, stack)
    ensures Runs(w, all, i, k, stack, pos, a)
  {
    hide Seen, InScript, Before;
  }

  /** A part that ends normally where nothing more shows until `k`. */
  lemma {:induction false} RunsFurther(w: World, all: seq<string>, i: nat, j: nat, k: nat, stack: seq<nat>, pos: nat,
      a: Result)
    requires Runs(w, all, i, j, stack, pos, a) && InScript(|all|, k, stack)
    requires a.how == Normal ==> Seen(w, all, j, stack, a.pos) == Seen(w, all, k, stack, a.pos)
    ensures Runs(w, all, i, k, stack, pos, a)
  {
    hide Seen, InScript, Before;
  }

  lemma {:induction false} NothingRuns(w: World, all: seq<string>, i: nat, stack: seq<nat>, pos: nat)
    requires InScript(|all|, i, stack)
    ensures Runs(w, all, i, i, stack, pos, Result([], pos, Normal))
  {
    hide Seen, InScript, Before;
    BeforeNothing(Seen(w, all, i, stack, pos));
  }

  lemma {:induction false} InScriptToo(n: nat, i: nat, j: nat, stack: seq<nat>)
    requires InScript(n, i, stack) && j <= n
    ensures InScript(n, j, stack)
  {
  }

  lemma {:induction false} PlainNext(w: World, all: seq<string>, i: nat, stack: seq<nat>, reply: Reply)
    requires i < |all| && MarkOf(all[i]) == NoMark && !Classify(all[i]).Gosub?
    requires Classify(all[i]) == Ask && reply.late ==>
               ParseAsk(all[i], w.number).None? || ParseAsk(all[i], w.number).value.limit.None?
    ensures match HowLineEnds(w.number, all[i], |stack|, reply.run)
            case Normal => NextOf(all, w.number, i, stack, reply) == Go(i + 1, stack)
            case Returned => stack != [] && NextOf(all, w.number, i, stack, reply) == Go(stack[|stack| - 1], stack[..|stack| - 1])
            case Stopped(ending) => NextOf(all, w.number, i, stack, reply) == Halt(ending)
  {
    hide MarkOf, Classify, ParseAsk, EndifFrom, EndsubFrom, BranchFrom, CallTo, LateNext, IfNext;
    MarksAndCommands(all[i]);
  }

  lemma {:induction false} PlainLineRuns(w: World, all: seq<string>, i: nat, stack: seq<nat>, pos: nat)
    requires i < |all| && InScript(|all|, i, stack) && MarkOf(all[i]) == NoMark && !Classify(all[i]).Gosub?
    requires !IsLate(w, Line(all[i]), pos)
    ensures Runs(w, all, i, i + 1, stack, pos,
                 Result([all[i]], Used(all[i], pos), HowLineEnds(w.number, all[i], |stack|, w.replies(pos).run)))
  {
    hide InScript, Seen, NextOf, Classify, MarkOf, HowLineEnds, ParseAsk;
    PlainNext(w, all, i, stack, w.replies(pos));
    SeenStep(w, all, i, stack, pos);
    InScriptToo(|all|, i, i + 1, stack);
    ConcatNothing([all[i]]);
  }

  /** A line that shows itself and leads to a part. */
  lemma {:induction false} RunsAfterLine(w: World, all: seq<string>, i: nat, t: nat, k: nat, stack: seq<nat>,
      pos: nat, after: nat,
                                         line: string, r: Result)
    requires InScript(|all|, i, stack) && Runs(w, all, t, k, stack, after, r)
    requires Seen(w, all, i, stack, pos) == Before([line], Seen(w, all, t, stack, after))
    ensures Runs(w, all, i, k, stack, pos, Result([line] + r.lines, r.pos, r.how))
  {
    hide Seen, InScript, Before;
    BeforeBefore([line], r.lines, Rest(w, all, r.how, k, stack, r.pos));
  }

  /** An [ENDIF] is passed over. */
  lemma {:induction false} EndifPasses(w: World, all: seq<string>, e: nat, stack: seq<nat>, pos: nat)
    requires InScript(|all|, e, stack) && e < |all| && MarkOf(all[e]) == EndifMark
    ensures InScript(|all|, e + 1, stack) && Seen(w, all, e, stack, pos) == Seen(w, all, e + 1, stack, pos)
  {
    MarksAndCommands(all[e]);
    InScriptToo(|all|, e, e + 1, stack);
    assert NextOf(all, w.number, e, stack, w.replies(pos)) == Go(e + 1, stack) by { hide Classify, MarkOf; }
    SeenStep(w, all, e, stack, pos);
    hide InScript, Seen, NextOf, Classify, MarkOf;
    BeforeNothing(Seen(w, all, e + 1, stack, pos));
  }

  /** An [ELSE] or [MAYBE] that a branch runs into leads behind the block. */
  lemma {:induction false} MarkerPasses(w: World, all: seq<string>, i: nat, e: nat, stack: seq<nat>, pos: nat)
    requires InScript(|all|, i, stack) && i < e < |all| && (MarkOf(all[i]) == ElseMark || MarkOf(all[i]) == MaybeMark)
    requires EndifFrom(all, i + 1, 0) == e
    ensures InScript(|all|, e, stack) && Seen(w, all, i, stack, pos) == Seen(w, all, e, stack, pos)
  {
    MarksAndCommands(all[i]);
    InScriptToo(|all|, i, e, stack);
    assert NextOf(all, w.number, i, stack, w.replies(pos)) == Go(e, stack) by { hide Classify, MarkOf, EndifFrom; }
    SeenStep(w, all, i, stack, pos);
    hide InScript, Seen, NextOf, Classify, MarkOf;
    BeforeNothing(Seen(w, all, e, stack, pos));
  }

  /** Where the scan for the end of the block ends, from any of its branches. */
  lemma {:induction false} EndOfBranches(all: seq<string>, i: nat, bs: Branches, e: nat)
    requires GoodBranches(bs) && Holds(all, i, PrintBranches(bs)) && i + |PrintBranches(bs)| == e < |all|
    requires MarkOf(all[e]) == EndifMark
    ensures EndifFrom(all, i, 0) == e
  {
    hide MarkOf, Holds, EndifFrom, BranchFrom;
    SkipBranches(all, i, bs, 0, ElseMark);
    SkipLine(all, e, 0, ElseMark);
  }

  lemma {:induction false} BranchParts(all: seq<string>, i: nat, bs: Branches) returns (j: nat)
    requires bs.Branch? && GoodBranches(bs) && Holds(all, i, PrintBranches(bs))
    ensures i < |all| && all[i] == bs.marker && (MarkOf(bs.marker) == ElseMark || MarkOf(bs.marker) == MaybeMark)
    ensures j == i + 1 + |PrintBlock(bs.body)| && i + |PrintBranches(bs)| == j + |PrintBranches(bs.more)|
    ensures GoodBlock(bs.body) && Holds(all, i + 1, PrintBlock(bs.body))
    ensures GoodBranches(bs.more) && Holds(all, j, PrintBranches(bs.more))
  {
    hide MarkOf, Holds, GoodBlock, PrintBlock;
    HoldsFirst(all, i, bs.marker, PrintBlock(bs.body) + PrintBranches(bs.more));
    HoldsBoth(all, i + 1, PrintBlock(bs.body), PrintBranches(bs.more));
    j := i + 1 + |PrintBlock(bs.body)|;
  }

  /** A branch that is over goes on behind the block. */
  lemma {:induction false} BehindBranch(w: World, all: seq<string>, i: nat, bs: Branches, e: nat, stack: seq<nat>,
      pos: nat)
    requires GoodBranches(bs) && Holds(all, i, PrintBranches(bs)) && i + |PrintBranches(bs)| == e < |all|
    requires MarkOf(all[e]) == EndifMark && InScript(|all|, i, stack)
    ensures InScript(|all|, e + 1, stack) && Seen(w, all, i, stack, pos) == Seen(w, all, e + 1, stack, pos)
  {
    hide MarkOf, Holds, InScript, Seen, EndifFrom, GoodBlock, GoodBranches, PrintBlock;
    InScriptToo(|all|, i, e, stack);
    EndifPasses(w, all, e, stack, pos);
    if bs.Branch? {
      hide PrintBranches;
      var j := BranchParts(all, i, bs);
      SkipBlock(all, i + 1, bs.body, 0, ElseMark);
      EndOfBranches(all, j, bs.more, e);
      MarkerPasses(w, all, i, e, stack, pos);
    } else {
      assert i == e;
    }
  }

  lemma {:induction false} CallFinds(w: World, all: seq<string>, name: string, resume: nat, stack: seq<nat>)
    requires Setting(w, all)
    ensures var next := CallTo(all, name, resume, stack);
            match SubOf(w.program, name)
            case None => next == Halt(Failed(NoSuchSub(name)))
            case Some(body) =>
              var k := SubFrom(all, 0, name);
              && k < |all| && IsSubAt(all, k, body)
              && next == if |stack| >= MAX_GOSUB_DEPTH then Halt(Failed(TooDeep)) else Go(k + 1, stack + [resume])
  {
    assert all[..|all|] == all;
    hide IsSubAt, SubFrom, GoodProgram, PrintProgram, SubOf;
    SubIsFound(all, 0, w.program, name);
  }

  lemma {:induction false} ReturnPasses(w: World, all: seq<string>, j: nat, i: nat, stack: seq<nat>, pos: nat)
    requires j < |all| && StartsWith(all[j], "[endsub]") && InScript(|all|, j, stack + [i]) && i <= |all|
    ensures InScript(|all|, i, stack) && Seen(w, all, j, stack + [i], pos) == Seen(w, all, i, stack, pos)
  {
    EndsubLine(all[j]);
    InitOfSnoc(stack, i);
    assert InScript(|all|, i, stack) by { assert forall k :: 0 <= k < |stack| ==> (stack + [i])[k] == stack[k]; }
    assert NextOf(all, w.number, j, stack + [i], w.replies(pos)) == Go(i, stack) by { hide Classify, MarkOf, StartsWith; }
    SeenStep(w, all, j, stack + [i], pos);
    hide InScript, Seen, NextOf, Classify, MarkOf, StartsWith;
    BeforeNothing(Seen(w, all, i, stack, pos));
  }

  /** Whether a sub's body runs into its [ENDSUB] or returns early, it goes on where it was called. */
  lemma {:induction false} CallEnds(w: World, all: seq<string>, resume: nat, j: nat, stack: seq<nat>,
      inner: seq<nat>, how: How, pos: nat)
    requires InScript(|all|, resume, stack) && j < |all| && StartsWith(all[j], "[endsub]")
    requires inner == stack + [resume] && InScript(|all|, j, inner)
    ensures Rest(w, all, how, j, inner, pos) == Rest(w, all, if how.Stopped? then how else Normal, resume, stack, pos)
  {
    InitOfSnoc(stack, resume);
    ReturnPasses(w, all, j, resume, stack, pos);
    hide InScript, Seen, StartsWith;
  }

  /** A call runs the sub's body and goes on where it said it would. */
  lemma {:induction false} CallRuns(w: World, all: seq<string>, i: nat, k: nat, j: nat, resume: nat, stack: seq<nat>,
      inner: seq<nat>, pos: nat, after: nat, r: Result)
    requires i < |all| && InScript(|all|, i, stack) && j < |all| && StartsWith(all[j], "[endsub]") && resume <= |all|
    requires inner == stack + [resume] && Runs(w, all, k, j, inner, after, r)
    requires Seen(w, all, i, stack, pos) == Before([all[i]], Seen(w, all, k, inner, after))
    ensures Runs(w, all, i, resume, stack, pos, AfterCall(all[i], r))
  {
    hide InScript, Seen, StartsWith, Before, Rest;
    InScriptToo(|all|, i, resume, stack);
    CallEnds(w, all, resume, j, stack, inner, r.how, r.pos);
    BeforeBefore([all[i]], r.lines, Rest(w, all, r.how, j, inner, r.pos));
  }

  /** A line that stops the script shows itself. */
  lemma {:induction false} StopRuns(w: World, all: seq<string>, i: nat, resume: nat, stack: seq<nat>, pos: nat,
      after: nat,
      ending: Ending)
    requires i < |all| && InScript(|all|, i, stack) && resume <= |all| && VisibleLine(all[i]) == [all[i]]
    requires NextOf(all, w.number, i, stack, w.replies(pos)) == Halt(ending)
    ensures Runs(w, all, i, resume, stack, pos, Result([all[i]], after, Stopped(ending)))
  {
    hide InScript, Seen, NextOf, VisibleLine;
    SeenStep(w, all, i, stack, pos);
    InScriptToo(|all|, i, resume, stack);
    ConcatNothing([all[i]]);
  }

  /** The line behind a block is no [IF]. */
  ghost predicate NoIfAt(all: seq<string>, j: nat) {
    j < |all| ==> MarkOf(all[j]) != IfMark
  }

  lemma {:induction false} ExecThen(w: World, b: Block, depth: nat, pos: nat)
    requires b.Then? && depth <= MAX_GOSUB_DEPTH
    ensures var late := IsLate(w, b.first, pos);
            var r := if late then ExecLate(w, b.first.text, depth, pos) else ExecStmt(w, b.first, depth, pos);
            var more := ExecBlock(w, if late then WithoutQuestion(b.rest) else b.rest, depth, r.pos);
            ExecBlock(w, b, depth, pos)
            == if r.how != Normal then r else Result(r.lines + more.lines, more.pos, more.how)
  {
    hide ExecStmt, ExecLate, Classify, ParseAsk;
  }

  lemma {:induction false} ThenParts(all: seq<string>, i: nat, b: Block) returns (j: nat)
    requires b.Then? && GoodBlock(b) && Holds(all, i, PrintBlock(b))
    ensures GoodStmt(b.first) && GoodBlock(b.rest) && j == i + |PrintStmt(b.first)|
    ensures Holds(all, i, PrintStmt(b.first)) && Holds(all, j, PrintBlock(b.rest))
    ensures i + |PrintBlock(b)| == j + |PrintBlock(b.rest)| <= |all|
  {
    hide Holds, GoodStmt, PrintStmt;
    HoldsBoth(all, i, PrintStmt(b.first), PrintBlock(b.rest));
    j := i + |PrintStmt(b.first)|;
  }

  lemma {:induction false} BlockRuns(w: World, all: seq<string>, i: nat, b: Block, stack: seq<nat>, pos: nat)
    requires Setting(w, all) && GoodBlock(b) && Holds(all, i, PrintBlock(b)) && InScript(|all|, i, stack)
    requires |stack| <= MAX_GOSUB_DEPTH && NoIfAt(all, i + |PrintBlock(b)|)
    ensures Runs(w, all, i, i + |PrintBlock(b)|, stack, pos, ExecBlock(w, b, |stack|, pos))
    decreases MAX_GOSUB_DEPTH - |stack|, 1, b, 1
  {
    hide Setting, InScript, Holds, Runs, GoodStmt, GoodBlock, ExecStmt, ExecLate, PrintStmt, PrintBlock, IsLate, NoIfAt;
    if b.Empty? {
      NothingRuns(w, all, i, stack, pos);
      PrintNothing();
    } else {
      ExecThen(w, b, |stack|, pos);
      hide ExecBlock;
      var j := ThenParts(all, i, b);
      var k := i + |PrintBlock(b)|;
      if IsLate(w, b.first, pos) {
        LateThenRuns(w, all, i, b, stack, pos);
      } else {
        InScriptToo(|all|, i, j, stack);
        InScriptToo(|all|, i, k, stack);
        StmtRuns(w, all, i, b.first, stack, pos);
        var r := ExecStmt(w, b.first, |stack|, pos);
        if r.how == Normal {
          BlockRuns(w, all, j, b.rest, stack, r.pos);
          RunsInTurn(w, all, i, j, k, stack, pos, r, ExecBlock(w, b.rest, |stack|, r.pos));
        } else {
          RunsAnywhere(w, all, i, j, k, stack, pos, r);
        }
      }
    }
  }

  lemma {:induction false} PrintNothing()
    ensures PrintBlock(Empty) == []
  {
  }

  // ---- An [ASK] whose limit passes ----

  lemma {:induction false} MarkIsIf(line: string)
    ensures StartsWith(line, "[if]") <==> MarkOf(line) == IfMark
  {
    hide StartsWith;
    if StartsWith(line, "[if]") { IfLine(line); }
  }

  lemma {:induction false} QuestionBehind(all: seq<string>, i: nat, s: Stmt) returns (resume: nat)
    requires s.Choice? && GoodStmt(s) && Holds(all, i, PrintStmt(s))
    ensures resume == i + |PrintStmt(s)| <= |all| && EndifFrom(all, i + 1, 0) + 1 == resume
    ensures i < |all| && MarkOf(all[i]) == IfMark
  {
    hide MarkOf, Holds, EndifFrom, GoodBlock, GoodBranches, PrintBlock, PrintBranches, PrintStmt;
    var e := ChoiceParts(all, i, s);
    SkipBlock(all, i + 1, s.yes, 0, ElseMark);
    EndOfBranches(all, i + 1 + |PrintBlock(s.yes)|, s.others, e);
    resume := e + 1;
  }

  lemma {:induction false} NoQuestionBehind(all: seq<string>, i: nat, rest: Block)
    requires !(rest.Then? && rest.first.Choice?) && GoodBlock(rest) && Holds(all, i, PrintBlock(rest))
    requires NoIfAt(all, i + |PrintBlock(rest)|)
    ensures NoIfAt(all, i) && i <= |all|
  {
    hide MarkOf, Holds, GoodBlock, GoodStmt, PrintBlock;
    if rest.Then? {
      FirstLineIs(all, i, rest);
    } else {
      PrintNothing();
      HoldsNothing(all, i);
    }
  }

  lemma {:induction false} FirstLineIs(all: seq<string>, i: nat, b: Block)
    requires b.Then? && b.first.Line? && GoodBlock(b) && Holds(all, i, PrintBlock(b))
    ensures i < |all| && MarkOf(all[i]) == NoMark
  {
    hide MarkOf, Holds;
    var j := ThenParts(all, i, b);
    HoldsOne(all, i, b.first.text);
  }

  lemma {:induction false} HoldsNothing(all: seq<string>, i: nat)
    requires Holds(all, i, [])
    ensures i <= |all|
  {
  }

  /** Where a late [ASK] goes on: behind the question about its answer, if there is one. */
  lemma {:induction false} ResumeIs(w: World, all: seq<string>, i: nat, rest: Block) returns (resume: nat)
    requires i < |all| && GoodBlock(rest) && Holds(all, i + 1, PrintBlock(rest)) && NoIfAt(all, i + 1 + |PrintBlock(rest)|)
    ensures i < resume <= |all| && Holds(all, resume, PrintBlock(WithoutQuestion(rest)))
    ensures GoodBlock(WithoutQuestion(rest))
    ensures resume + |PrintBlock(WithoutQuestion(rest))| == i + 1 + |PrintBlock(rest)| <= |all|
    ensures if IfFollows(all, i) then EndifFrom(all, i + 2, 0) < |all| && resume == EndifFrom(all, i + 2, 0) + 1
            else resume == i + 1
  {
    hide MarkOf, StartsWith, Holds, EndifFrom, GoodBlock, GoodStmt, PrintBlock, PrintStmt, NoIfAt;
    if rest.Then? && rest.first.Choice? {
      var j := ThenParts(all, i + 1, rest);
      resume := QuestionBehind(all, i + 1, rest.first);
      MarkIsIf(all[i + 1]);
    } else {
      NoQuestionBehind(all, i + 1, rest);
      resume := i + 1;
      NoIfFollows(all, i);
      HoldsLength(all, i + 1, PrintBlock(rest));
    }
  }

  lemma {:induction false} NoIfFollows(all: seq<string>, i: nat)
    requires NoIfAt(all, i + 1)
    ensures !IfFollows(all, i)
  {
    hide StartsWith, MarkOf;
    if i + 1 < |all| { MarkIsIf(all[i + 1]); }
  }

  lemma {:induction false} HoldsLength(all: seq<string>, i: nat, part: seq<string>)
    requires Holds(all, i, part)
    ensures i + |part| <= |all|
  {
  }

  lemma {:induction false} LateLineNext(w: World, all: seq<string>, i: nat, stack: seq<nat>, pos: nat)
    requires i < |all| && IsLate(w, Line(all[i]), pos) && MarkOf(all[i]) == NoMark
    ensures ParseAsk(all[i], w.number).Some? && VisibleLine(all[i]) == [all[i]] && NextPos(all, i, pos) == pos + 1
    ensures NextOf(all, w.number, i, stack, w.replies(pos)) == LateNext(all, ParseAsk(all[i], w.number).value.name, i, stack)
  {
    hide Classify, ParseAsk, LateNext, MarkOf;
  }

  lemma {:induction false} ExecLateIs(w: World, text: string, depth: nat, pos: nat)
    requires depth <= MAX_GOSUB_DEPTH && ParseAsk(text, w.number).Some?
    ensures var name := ParseAsk(text, w.number).value.name;
            ExecLate(w, text, depth, pos)
            == if name == "" then Result([text], pos + 1, Stopped(EndCommand)) else ExecCall(w, text, name, depth, pos + 1)
  {
    hide ExecCall, ParseAsk;
  }

  lemma {:induction false} LateRuns(w: World, all: seq<string>, i: nat, rest: Block, stack: seq<nat>,
      pos: nat) returns (resume: nat)
    requires Setting(w, all) && i < |all| && InScript(|all|, i, stack) && |stack| <= MAX_GOSUB_DEPTH
    requires IsLate(w, Line(all[i]), pos) && MarkOf(all[i]) == NoMark && ParseAsk(all[i], w.number).Some?
    requires GoodBlock(rest) && Holds(all, i + 1, PrintBlock(rest)) && NoIfAt(all, i + 1 + |PrintBlock(rest)|)
    ensures i < resume <= |all| && Holds(all, resume, PrintBlock(WithoutQuestion(rest)))
    ensures GoodBlock(WithoutQuestion(rest))
    ensures resume + |PrintBlock(WithoutQuestion(rest))| == i + 1 + |PrintBlock(rest)| <= |all|
    ensures Runs(w, all, i, resume, stack, pos, ExecLate(w, all[i], |stack|, pos))
    decreases MAX_GOSUB_DEPTH - |stack|, 0, 1
  {
    hide Setting, InScript, Holds, Runs, GoodBlock, PrintBlock, ExecLate, ExecCall, IsLate, NoIfAt, MarkOf, ParseAsk,
        Classify,
         NextOf, EndifFrom, StartsWith, WithoutQuestion, VisibleLine;
    resume := ResumeIs(w, all, i, rest);
    LateLineNext(w, all, i, stack, pos);
    var name := ParseAsk(all[i], w.number).value.name;
    ExecLateIs(w, all[i], |stack|, pos);
    if name == "" {
      StopRuns(w, all, i, resume, stack, pos, pos + 1, EndCommand);
    } else {
      LateCalls(all, name, i, resume, stack);
      CallLineRuns(w, all, i, name, resume, stack, pos);
    }
  }

  lemma {:induction false} LateCalls(all: seq<string>, name: string, i: nat, resume: nat, stack: seq<nat>)
    requires name != ""
    requires if IfFollows(all, i) then EndifFrom(all, i + 2, 0) < |all| && resume == EndifFrom(all, i + 2, 0) + 1
             else resume == i + 1
    ensures LateNext(all, name, i, stack) == CallTo(all, name, resume, stack)
  {
    hide StartsWith, EndifFrom, CallTo;
  }

  lemma {:induction false} LateThenRuns(w: World, all: seq<string>, i: nat, b: Block, stack: seq<nat>, pos: nat)
    requires Setting(w, all) && b.Then? && GoodBlock(b) && Holds(all, i, PrintBlock(b)) && InScript(|all|, i, stack)
    requires |stack| <= MAX_GOSUB_DEPTH && NoIfAt(all, i + |PrintBlock(b)|) && IsLate(w, b.first, pos)
    ensures Runs(w, all, i, i + |PrintBlock(b)|, stack, pos, ExecBlock(w, b, |stack|, pos))
    decreases MAX_GOSUB_DEPTH - |stack|, 1, b, 0
  {
    hide Setting, InScript, Holds, Runs, GoodStmt, GoodBlock, ExecStmt, ExecLate, ExecBlock, PrintBlock, PrintStmt,
        IsLate, NoIfAt,
         MarkOf, ParseAsk;
    ExecThen(w, b, |stack|, pos);
    var j := ThenParts(all, i, b);
    LateLine(w, all, i, b.first, pos);
    var resume := LateRuns(w, all, i, b.rest, stack, pos);
    var rest := WithoutQuestion(b.rest);
    var k := i + |PrintBlock(b)|;
    var r := ExecLate(w, all[i], |stack|, pos);
    InScriptToo(|all|, i, resume, stack);
    InScriptToo(|all|, i, k, stack);
    if r.how == Normal {
      BlockRuns(w, all, resume, rest, stack, r.pos);
      RunsInTurn(w, all, i, resume, k, stack, pos, r, ExecBlock(w, rest, |stack|, r.pos));
    } else {
      RunsAnywhere(w, all, i, resume, k, stack, pos, r);
    }
  }

  lemma {:induction false} LateLine(w: World, all: seq<string>, i: nat, s: Stmt, pos: nat)
    requires IsLate(w, s, pos) && GoodStmt(s) && Holds(all, i, PrintStmt(s))
    ensures i < |all| && s == Line(all[i]) && MarkOf(all[i]) == NoMark && |PrintStmt(s)| == 1
    ensures ParseAsk(all[i], w.number).Some?
  {
    hide MarkOf, ParseAsk, Classify, Holds;
    HoldsOne(all, i, s.text);
  }

  // ---- Calls ----

  /** A line that calls a sub. */
  lemma {:induction false} CallLineRuns(w: World, all: seq<string>, i: nat, name: string, resume: nat,
      stack: seq<nat>, pos: nat)
    requires Setting(w, all) && i < |all| && InScript(|all|, i, stack) && |stack| <= MAX_GOSUB_DEPTH && resume <= |all|
    requires VisibleLine(all[i]) == [all[i]]
    requires NextOf(all, w.number, i, stack, w.replies(pos)) == CallTo(all, name, resume, stack)
    ensures Runs(w, all, i, resume, stack, pos, ExecCall(w, all[i], name, |stack|, NextPos(all, i, pos)))
    decreases MAX_GOSUB_DEPTH - |stack|, 0, 0
  {
    hide Setting, InScript, Runs, Seen, GoodBlock, PrintBlock, ExecCall, ExecBlock, Classify, NextOf, SubFrom, SubOf,
        StartsWith,
         VisibleLine, IsSubAt, CallTo, AfterCall, NextPos;
    var after := NextPos(all, i, pos);
    ExecCallIs(w, all[i], name, |stack|, after);
    CallFinds(w, all, name, resume, stack);
    match SubOf(w.program, name)
    case None => StopRuns(w, all, i, resume, stack, pos, after, Failed(NoSuchSub(name)));
    case Some(body) =>
      if |stack| >= MAX_GOSUB_DEPTH {
        StopRuns(w, all, i, resume, stack, pos, after, Failed(TooDeep));
      } else {
        SeenStep(w, all, i, stack, pos);
        SubRuns(w, all, i, SubFrom(all, 0, name), body, resume, stack, stack + [resume], pos, after);
      }
  }

  lemma {:induction false} ExecCallIs(w: World, text: string, name: string, depth: nat, pos: nat)
    requires depth <= MAX_GOSUB_DEPTH
    ensures match SubOf(w.program, name)
            case None => ExecCall(w, text, name, depth, pos) == Result([text], pos, Stopped(Failed(NoSuchSub(name))))
            case Some(body) =>
              if depth >= MAX_GOSUB_DEPTH then ExecCall(w, text, name, depth, pos) == Result([text], pos, Stopped(Failed(TooDeep)))
              else ExecCall(w, text, name, depth, pos) == AfterCall(text, ExecBlock(w, body, depth + 1, pos))
  {
    hide ExecBlock, SubOf;
  }

  lemma {:induction false} SubRuns(w: World, all: seq<string>, i: nat, k: nat, body: Block, resume: nat,
      stack: seq<nat>,
      inner: seq<nat>, pos: nat, after: nat)
    requires Setting(w, all) && i < |all| && InScript(|all|, i, stack) && |stack| < MAX_GOSUB_DEPTH && resume <= |all|
    requires inner == stack + [resume] && InScript(|all|, k + 1, inner) && IsSubAt(all, k, body)
    requires Seen(w, all, i, stack, pos) == Before([all[i]], Seen(w, all, k + 1, inner, after))
    ensures Runs(w, all, i, resume, stack, pos, AfterCall(all[i], ExecBlock(w, body, |stack| + 1, after)))
    decreases MAX_GOSUB_DEPTH - |stack|, 0, 0, 0
  {
    hide Setting, InScript, Holds, Runs, Seen, GoodBlock, PrintBlock, ExecBlock, StartsWith, AfterCall, Before, NoIfAt;
    EndsubIsNoIf(all, k, body);
    BlockRuns(w, all, k + 1, body, inner, after);
    CallRuns(w, all, i, k + 1, k + 1 + |PrintBlock(body)|, resume, stack, inner, pos, after, ExecBlock(w, body, |inner|, after));
  }

  lemma {:induction false} EndsubIsNoIf(all: seq<string>, k: nat, body: Block)
    requires IsSubAt(all, k, body)
    ensures NoIfAt(all, k + 1 + |PrintBlock(body)|)
  {
    hide Holds, GoodBlock, PrintBlock, StartsWith, MarkOf, Classify;
    EndsubLine(all[k + 1 + |PrintBlock(body)|]);
  }

  // ---- Statements ----

  lemma {:induction false} ExecPlain(w: World, text: string, depth: nat, pos: nat)
    requires depth <= MAX_GOSUB_DEPTH && !Classify(text).Gosub?
    ensures ExecStmt(w, Line(text), depth, pos)
            == Result([text], Used(text, pos), HowLineEnds(w.number, text, depth, w.replies(pos).run))
  {
    hide Classify, HowLineEnds;
  }

  lemma {:induction false} ExecChoice(w: World, s: Stmt, depth: nat, pos: nat)
    requires depth <= MAX_GOSUB_DEPTH && s.Choice?
    ensures var answer := w.replies(pos).answer;
            var r := if answer == 1 then ExecBlock(w, s.yes, depth, pos + 1)
                     else ExecBranches(w, s.others, if answer == -1 then ElseMark else MaybeMark, depth, pos + 1);
            ExecStmt(w, s, depth, pos) == Result([s.question] + r.lines, r.pos, r.how)
  {
    hide ExecBlock, ExecBranches;
  }

  lemma {:induction false} GosubIs(w: World, all: seq<string>, i: nat, stack: seq<nat>, pos: nat)
    requires i < |all| && Classify(all[i]).Gosub? && MarkOf(all[i]) == NoMark && |stack| <= MAX_GOSUB_DEPTH
    ensures VisibleLine(all[i]) == [all[i]] && NextPos(all, i, pos) == pos
    ensures NextOf(all, w.number, i, stack, w.replies(pos)) == CallTo(all, Classify(all[i]).name, i + 1, stack)
    ensures ExecStmt(w, Line(all[i]), |stack|, pos) == ExecCall(w, all[i], Classify(all[i]).name, |stack|, pos)
  {
    hide Classify, MarkOf, CallTo, ExecCall;
  }

  lemma {:induction false} StmtRuns(w: World, all: seq<string>, i: nat, s: Stmt, stack: seq<nat>, pos: nat)
    requires Setting(w, all) && GoodStmt(s) && Holds(all, i, PrintStmt(s)) && InScript(|all|, i, stack)
    requires |stack| <= MAX_GOSUB_DEPTH && !IsLate(w, s, pos)
    ensures Runs(w, all, i, i + |PrintStmt(s)|, stack, pos, ExecStmt(w, s, |stack|, pos))
    decreases MAX_GOSUB_DEPTH - |stack|, 1, s, 1
  {
    hide Setting, InScript, Holds, Runs, GoodBlock, GoodBranches, ExecStmt, MarkOf, Classify, HowLineEnds, IsLate;
    match s
    case Line(text) =>
      HoldsOne(all, i, text);
      if Classify(text).Gosub? {
        GosubIs(w, all, i, stack, pos);
        CallLineRuns(w, all, i, Classify(text).name, i + 1, stack, pos);
      } else {
        PlainLineRuns(w, all, i, stack, pos);
        ExecPlain(w, text, |stack|, pos);
      }
    case Choice(question, yes, others, close) =>
      hide PrintStmt, GoodStmt;
      ChoiceRuns(w, all, i, s, stack, pos);
  }

  lemma {:induction false} ChoiceNext(w: World, all: seq<string>, i: nat, s: Stmt, stack: seq<nat>, reply: Reply,
      pos: nat)
      returns (j: nat, e: nat)
    requires s.Choice? && GoodStmt(s) && Holds(all, i, PrintStmt(s))
    ensures j == i + 1 + |PrintBlock(s.yes)| && e == j + |PrintBranches(s.others)| < |all| && i + |PrintStmt(s)| == e + 1
    ensures Holds(all, i + 1, PrintBlock(s.yes)) && Holds(all, j, PrintBranches(s.others))
    ensures all[i] == s.question && MarkOf(all[e]) == EndifMark
    ensures VisibleLine(all[i]) == [s.question] && NextPos(all, i, pos) == pos + 1
    ensures NextOf(all, w.number, i, stack, reply)
            == Go(if reply.answer == 1 then i + 1
                  else BranchFrom(all, j, 0, if reply.answer == -1 then ElseMark else MaybeMark), stack)
  {
    hide Holds, PrintBlock, PrintBranches, PrintStmt, GoodBlock, GoodBranches, Classify, EndifFrom, BranchFrom, MarkOf;
    e := ChoiceParts(all, i, s);
    j := i + 1 + |PrintBlock(s.yes)|;
    MarksAndCommands(all[i]);
    SkipBlock(all, i + 1, s.yes, 0, ElseMark);
    SkipBlock(all, i + 1, s.yes, 0, MaybeMark);
    EndOfBranches(all, j, s.others, e);
  }

  /** Behind a branch comes the next marker or the [ENDIF]. */
  lemma {:induction false} BranchEndsWell(all: seq<string>, j: nat, bs: Branches, e: nat)
    requires GoodBranches(bs) && Holds(all, j, PrintBranches(bs)) && j + |PrintBranches(bs)| == e < |all|
    requires MarkOf(all[e]) == EndifMark
    ensures NoIfAt(all, j)
  {
    hide MarkOf, Holds, GoodBlock, PrintBlock;
    if bs.Branch? { HoldsFirst(all, j, bs.marker, PrintBlock(bs.body) + PrintBranches(bs.more)); }
  }

  lemma {:induction false} ChoiceRuns(w: World, all: seq<string>, i: nat, s: Stmt, stack: seq<nat>, pos: nat)
    requires Setting(w, all) && s.Choice? && GoodStmt(s) && Holds(all, i, PrintStmt(s)) && InScript(|all|, i, stack)
    requires |stack| <= MAX_GOSUB_DEPTH
    ensures Runs(w, all, i, i + |PrintStmt(s)|, stack, pos, ExecStmt(w, s, |stack|, pos))
    decreases MAX_GOSUB_DEPTH - |stack|, 1, s, 0
  {
    hide Setting, InScript, Holds, Runs, Seen, GoodBlock, GoodBranches, PrintBlock, PrintBranches, PrintStmt,
         ExecStmt, ExecBlock, ExecBranches, MarkOf, Classify, NextOf, BranchFrom, VisibleLine, NoIfAt, NextPos;
    var reply := w.replies(pos);
    var j, e := ChoiceNext(w, all, i, s, stack, reply, pos);
    ExecChoice(w, s, |stack|, pos);
    SeenStep(w, all, i, stack, pos);
    InScriptToo(|all|, i, i + 1, stack);
    InScriptToo(|all|, i, j, stack);
    var wanted := if reply.answer == -1 then ElseMark else MaybeMark;
    if reply.answer == 1 {
      var r := ExecBlock(w, s.yes, |stack|, pos + 1);
      BranchEndsWell(all, j, s.others, e);
      BlockRuns(w, all, i + 1, s.yes, stack, pos + 1);
      BehindBranch(w, all, j, s.others, e, stack, r.pos);
      RunsFurther(w, all, i + 1, j, e + 1, stack, pos + 1, r);
      RunsAfterLine(w, all, i, i + 1, e + 1, stack, pos, pos + 1, s.question, r);
    } else {
      BranchesRun(w, all, j, s.others, e, wanted, stack, pos + 1);
      RunsAfterLine(w, all, i, BranchFrom(all, j, 0, wanted), e + 1, stack, pos, pos + 1, s.question,
                    ExecBranches(w, s.others, wanted, |stack|, pos + 1));
    }
  }

  /** From where a block with no yes jumps to, it runs its first branch of the wanted kind. */
  lemma {:induction false} BranchesRun(w: World, all: seq<string>, i: nat, bs: Branches, e: nat, wanted: Mark,
      stack: seq<nat>, pos: nat)
    requires Setting(w, all) && GoodBranches(bs) && Holds(all, i, PrintBranches(bs)) && i + |PrintBranches(bs)| == e < |all|
    requires MarkOf(all[e]) == EndifMark && InScript(|all|, i, stack) && (wanted == ElseMark || wanted == MaybeMark)
    requires |stack| <= MAX_GOSUB_DEPTH
    ensures Runs(w, all, BranchFrom(all, i, 0, wanted), e + 1, stack, pos, ExecBranches(w, bs, wanted, |stack|, pos))
    decreases MAX_GOSUB_DEPTH - |stack|, 1, bs, 0
  {
    hide Setting, InScript, Holds, Runs, Seen, GoodBlock, PrintBlock, ExecBlock, EndifFrom, BranchFrom, MarkOf, NoIfAt;
    match bs
    case NoMore =>
      SkipLine(all, e, 0, wanted);
      NothingRuns(w, all, e, stack, pos);
      EndifPasses(w, all, e, stack, pos);
      RunsFurther(w, all, e, e, e + 1, stack, pos, Result([], pos, Normal));
    case Branch(marker, body, more) =>
      var j := BranchParts(all, i, bs);
      hide GoodBranches, PrintBranches;
      SkipLine(all, i, 0, wanted);
      InScriptToo(|all|, i, j, stack);
      if MarkOf(marker) == wanted {
        InScriptToo(|all|, i, i + 1, stack);
        BranchEndsWell(all, j, more, e);
        BlockRuns(w, all, i + 1, body, stack, pos);
        var r := ExecBlock(w, body, |stack|, pos);
        BehindBranch(w, all, j, more, e, stack, r.pos);
        RunsFurther(w, all, i + 1, j, e + 1, stack, pos, r);
      } else {
        SkipBlock(all, i + 1, body, 0, wanted);
        BranchesRun(w, all, j, more, e, wanted, stack, pos);
      }
  }

  // ---- Whole programs ----

  lemma {:induction false} SubNext(w: World, all: seq<string>, i: nat, reply: Reply)
    requires i < |all| && Classify(all[i]) == Sub && EndsubFrom(all, i + 1) < |all|
    ensures NextOf(all, w.number, i, [], reply) == Go(EndsubFrom(all, i + 1) + 1, [])
    ensures VisibleLine(all[i]) == []
  {
    hide Classify, MarkOf, EndsubFrom;
    MarksAndCommands(all[i]);
  }

  lemma {:induction false} SubPasses(w: World, all: seq<string>, i: nat, k: nat, pos: nat)
    requires i < k <= |all| && InScript(|all|, i, [])
    requires NextOf(all, w.number, i, [], w.replies(pos)) == Go(k, []) && VisibleLine(all[i]) == [] && Classify(all[i]) == Sub
    ensures InScript(|all|, k, []) && Seen(w, all, i, [], pos) == Seen(w, all, k, [], pos)
  {
    InScriptToo(|all|, i, k, []);
    hide NextOf, Seen, InScript, VisibleLine, Classify;
    SeenStep(w, all, i, [], pos);
    BeforeNothing(Seen(w, all, k, [], pos));
  }

  lemma {:induction false} SubIsSkipped(w: World, all: seq<string>, i: nat, p: Program, pos: nat) returns (j: nat)
    requires p.SubDef? && GoodProgram(p) && Holds(all, i, PrintProgram(p)) && InScript(|all|, i, [])
    ensures InScript(|all|, j + 1, []) && Holds(all, j + 1, PrintProgram(p.rest))
    ensures j + 1 + |PrintProgram(p.rest)| == i + |PrintProgram(p)|
    ensures Seen(w, all, i, [], pos) == Seen(w, all, j + 1, [], pos)
  {
    hide Holds, PrintProgram, PrintBlock, GoodBlock, Classify, SubFrom, EndsubFrom, IsSubAt, SubHeader, StartsWith,
         NextOf, Seen, InScript, VisibleLine;
    j := SubIsHere(all, i, p, "");
    hide GoodProgram;
    SubNext(w, all, i, w.replies(pos));
    SubPasses(w, all, i, j + 1, pos);
  }

  lemma {:induction false} MainRuns(w: World, all: seq<string>, i: nat, j: nat, pos: nat, r: Result, rest: Walk)
    requires Runs(w, all, i, j, [], pos, r) && (r.how == Normal ==> Seen(w, all, j, [], r.pos) == rest)
    ensures Seen(w, all, i, [], pos) == if r.how.Stopped? then Walk(r.lines, r.how.ending) else Before(r.lines, rest)
  {
    hide Seen, InScript;
    ConcatNothing(r.lines);
  }

  lemma {:induction false} InScriptAtTop(n: nat, i: nat)
    requires i <= n
    ensures InScript(n, i, [])
  {
  }

  /** Behind a main part comes a sub or the end of the script. */
  lemma {:induction false} MainEndsWell(all: seq<string>, j: nat, p: Program)
    requires GoodProgram(p) && !p.Main? && Holds(all, j, PrintProgram(p)) && j + |PrintProgram(p)| == |all|
    ensures NoIfAt(all, j)
  {
    hide Holds, PrintBlock, GoodBlock, Classify, MarkOf, StartsWith;
    if p.SubDef? {
      HoldsFirst(all, j, p.header, PrintBlock(p.body) + ([p.close] + PrintProgram(p.rest)));
      MarksAndCommands(p.header);
    }
  }

  lemma {:induction false} ProgramRuns(w: World, all: seq<string>, i: nat, p: Program, pos: nat)
    requires Setting(w, all) && GoodProgram(p) && Holds(all, i, PrintProgram(p)) && i + |PrintProgram(p)| == |all|
    ensures InScript(|all|, i, []) && Seen(w, all, i, [], pos) == ExecProgram(w, p, pos)
    decreases p
  {
    hide Setting, Holds, PrintBlock, GoodBlock, Classify, StartsWith, ExecBlock, InScript, Seen, Before, Runs, NoIfAt;
    InScriptAtTop(|all|, i);
    match p
    case Finish =>
      SeenAtEnd(w, all, pos);
    case Main(body, rest) =>
      MainParts(all, i, p);
      hide PrintProgram;
      MainEndsWell(all, i + |PrintBlock(body)|, rest);
      BlockRuns(w, all, i, body, [], pos);
      var r := ExecBlock(w, body, 0, pos);
      ProgramRuns(w, all, i + |PrintBlock(body)|, rest, r.pos);
      MainRuns(w, all, i, i + |PrintBlock(body)|, pos, r, ExecProgram(w, rest, r.pos));
    case SubDef(header, body, close, rest) =>
      var j := SubIsSkipped(w, all, i, p, pos);
      hide PrintProgram;
      ProgramRuns(w, all, j + 1, rest, pos);
  }

  /** For every structured program and every stream of replies (the answers to its questions, the [ASK] limits
      that pass, the way the tasks it runs end), the way the line-index machine takes through the printed
      lines shows exactly the lines the structure executes, in order, and ends for the same reason. */
  lemma {:induction false} MachineRunsTheStructure(w: World)
    requires GoodProgram(w.program)
    ensures var all := PrintProgram(w.program);
            && InScript(|all|, 0, [])
            && var walk := WalkFrom(all, w.number, 0, [], w.replies, 0);
               Walk(Visible(walk.all), walk.ending) == ExecProgram(w, w.program, 0)
  {
    var all := PrintProgram(w.program);
    assert all[0..|all|] == all;
    ProgramRuns(w, all, 0, w.program, 0);
  }

  /** The same for the machine with its waits: a run that gets these replies and reaches its end takes up the
      lines the structure executes, and shows the error it ends with, if any. */
  lemma {:induction false} FinishedRunIsTheStructure(w: World, keyboard: bool, tts: bool, echo: bool, ticks: seq<Tick>)
    requires GoodProgram(w.program)
    ensures var all, m := PrintProgram(w.program), Start(keyboard, tts, echo);
            && Inv(all, w.number, m)
            && var end := RunFrom(all, w.number, m, ticks);
               Follows(all, w.number, m, ticks, w.replies, 0) && end.state == Done ==>
                 && Visible(Trace(all, w.number, m, ticks)) == ExecProgram(w, w.program, 0).all
                 && Failures(end.shown) == FailureOf(ExecProgram(w, w.program, 0).ending)
  {
    hide GoodProgram, PrintProgram, ExecProgram, Inv, InScript, WalkFrom, Follows, Trace, RunFrom, Failures, Visible;
    MachineRunsTheStructure(w);
    FinishedRunIsTheWalk(PrintProgram(w.program), w.number, keyboard, tts, echo, ticks, w.replies);
  }

  /** And every run that nobody leaves on request gets some replies: whatever the ticks bring, a finished run
      executed the structure. */
  lemma {:induction false} EveryFinishedRunIsTheStructure(program: Program, number: string -> Number, keyboard: bool,
      tts: bool, echo: bool, ticks: seq<Tick>) returns (replies: nat -> Reply)
    requires GoodProgram(program) && NobodyLeaves(ticks)
    ensures var all, m, w := PrintProgram(program), Start(keyboard, tts, echo), World(program, number, replies);
            && Inv(all, number, m)
            && Follows(all, number, m, ticks, replies, 0)
            && var end := RunFrom(all, number, m, ticks);
               end.state == Done ==>
                 && Visible(Trace(all, number, m, ticks)) == ExecProgram(w, program, 0).all
                 && Failures(end.shown) == FailureOf(ExecProgram(w, program, 0).ending)
  {
    hide GoodProgram, PrintProgram, ExecProgram, Inv, InScript, WalkFrom, Follows, Trace, RunFrom, Failures, Visible,
         NobodyLeaves;
    replies := EveryFinishedRunIsAWalk(PrintProgram(program), number, keyboard, tts, echo, ticks);
    FinishedRunIsTheStructure(World(program, number, replies), keyboard, tts, echo, ticks);
  }
}
