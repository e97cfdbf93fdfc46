/** What a conversation gets for a call is what the remote it was sent to said first while it was asked, or the
    timeout error (source/remote_tools.cpp, source/tool_worker.cpp, source/ai_root.cpp). */
module ToolAnswers {
  import opened Options
  import opened Sequences
  import opened ToolQueues
  import opened ToolProtocol

  /** The call a remote is at: the last one written to it, if it has sent no result for that since. */
  function AtWork(log: seq<Entry>, key: nat): Option<Id> {
    if log == [] then None
    else
      var before := AtWork(log[..|log| - 1], key);
      match log[|log| - 1]
      case Wrote(k, call) => if k == key then Some(call.id) else before
      case Heard(k, id, _) => if k == key && before == Some(id) then None else before
  }

  /** The results that arrived from the remote that was at their call, each as it was sent. */
  function Accepted(log: seq<Entry>): seq<Answer> {
    if log == [] then []
    else
      var before := log[..|log| - 1];
      Accepted(before)
      + match log[|log| - 1]
        case Wrote(_, _) => []
        case Heard(key, id, text) => if AtWork(before, key) == Some(id) then [Answer(id, true, text)] else []
  }

  function Writes(log: seq<Entry>): seq<Sent> {
    if log == [] then []
    else
      Writes(log[..|log| - 1])
      + match log[|log| - 1] case Wrote(key, call) => [Sent(key, call)] case Heard(_, _, _) => []
  }

  function Genuine(answers: seq<Answer>): seq<Answer> {
    if answers == [] then []
    else Genuine(answers[..|answers| - 1]) + if answers[|answers| - 1].genuine then [answers[|answers| - 1]] else []
  }

  ghost predicate Contains(all: seq<Answer>, some: seq<Answer>) {
    forall k :: 0 <= k < |some| ==> some[k] in all
  }

  // ---- What every state satisfies ----

  /** Each remote waits for what the log says it is at. */
  ghost predicate Heeds(w: World) {
    && (forall k :: 0 <= k < |w.remotes| ==> w.remotes[k].awaiting == AtWork(w.log, w.remotes[k].key))
    && (forall key: nat :: key >= w.joins ==> AtWork(w.log, key) == None)
  }

  /** Genuine answers are the accepted ones, in order; all others are the timeout error. */
  ghost predicate Sourced(w: World) {
    && Genuine(w.produced) == Accepted(w.log)
    && (forall k :: 0 <= k < |w.produced| && !w.produced[k].genuine ==>
          w.produced[k].text == "Error: no response within 300 seconds.")
  }

  /** Whatever waits or was claimed was produced. */
  ghost predicate Kept(w: World) {
    && Contains(w.produced, w.results)
    && forall k :: 0 <= k < |w.claims| ==> w.claims[k].answer in w.produced
  }

  /** The log has every call that was sent, and calls with one id are one call. */
  ghost predicate Told(w: World) {
    Writes(w.log) == w.sent && OneCallAnId(w.calls, w.sent)
  }

  ghost predicate OneCallAnId(calls: seq<Call>, sent: seq<Sent>) {
    && (forall j, k :: 0 <= j < |calls| && 0 <= k < |calls| && calls[j].id == calls[k].id ==>
          calls[j].number == calls[k].number)
    && (forall j, k :: 0 <= j < |sent| && 0 <= k < |calls| && sent[j].call.id == calls[k].id ==>
          sent[j].call.number == calls[k].number)
    && (forall j, k :: 0 <= j < |sent| && 0 <= k < |sent| && sent[j].call.id == sent[k].call.id ==>
          sent[j].call.number == sent[k].call.number)
  }

  ghost predicate Faithful(w: World) {
    Heeds(w) && Sourced(w) && Kept(w) && Told(w)
  }

  // ---- A poll keeps it ----

  /** The result a poll accepts. */
  function Takes(r: Remote, input: Input): seq<Answer> {
    if r.alive && input.arrival.Line? && input.arrival.msg.Result? && r.awaiting == Some(input.arrival.msg.id) then
      [Answer(input.arrival.msg.id, true, input.arrival.msg.text)]
    else []
  }

  lemma {:induction false} ReceiveTakes(r: Remote, results: seq<Answer>, input: Input)
    requires r.alive
    ensures var (heard, after) := Receive(r, results, input);
            after == results + Takes(r, input) && heard.awaiting == if Takes(r, input) == [] then r.awaiting else None
  {
    ConcatNothing(results);
  }

  /** A poll queues exactly the result it accepts, as it was sent. */
  lemma {:induction false} PollTakes(r: Remote, calls: seq<Call>, results: seq<Answer>, input: Input)
    ensures var p := Poll(r, calls, results, input);
            && p.remote.key == r.key
            && p.results == results + Takes(r, input)
            && p.remote.awaiting == (if p.wrote.Some? then Some(p.wrote.value.id)
                                     else if Takes(r, input) == [] then r.awaiting else None)
            && (p.wrote.Some? ==> p.wrote.value in calls)
            && forall k :: 0 <= k < |p.calls| ==> p.calls[k] in calls
  {
    hide Receive, Heartbeat, OldestFor, Remove, Takes;
    if !r.alive {
      ConcatNothing(results);
      DeadTakesNothing(r, input);
    } else {
      ReceiveTakes(r, results, input);
      ReceiveMeans(r, results, input);
      var (heard, answered) := Receive(r, results, input);
      HeartbeatMeans(heard, input);
      var k := OldestFor(calls, r.names);
      if k < |calls| { RemoveIs(calls, k); }
    }
  }

  lemma {:induction false} DeadTakesNothing(r: Remote, input: Input)
    requires !r.alive
    ensures Takes(r, input) == []
  {
  }

  lemma {:induction false} AtWorkSnoc(log: seq<Entry>, e: Entry, key: nat)
    ensures AtWork(log + [e], key)
            == match e
               case Wrote(k, call) => if k == key then Some(call.id) else AtWork(log, key)
               case Heard(k, id, _) => if k == key && AtWork(log, key) == Some(id) then None else AtWork(log, key)
  {
    InitOfSnoc(log, e);
  }

  lemma {:induction false} AcceptedSnoc(log: seq<Entry>, e: Entry)
    ensures Accepted(log + [e])
            == Accepted(log)
               + match e
                 case Wrote(_, _) => []
                 case Heard(key, id, text) => if AtWork(log, key) == Some(id) then [Answer(id, true, text)] else []
    ensures Writes(log + [e]) == Writes(log) + match e case Wrote(key, call) => [Sent(key, call)] case Heard(_, _, _) => []
  {
    hide AtWork;
    InitOfSnoc(log, e);
  }

  /** What the log of one poll says. */
  lemma {:induction false} LogOfPoll(log: seq<Entry>, r: Remote, input: Input, wrote: Option<Call>)
    requires r.awaiting == AtWork(log, r.key)
    ensures var after := log + Hears(r, input) + if wrote.Some? then [Wrote(r.key, wrote.value)] else [];
            && Accepted(after) == Accepted(log) + Takes(r, input)
            && Writes(after) == Writes(log) + (if wrote.Some? then [Sent(r.key, wrote.value)] else [])
            && AtWork(after, r.key) == (if wrote.Some? then Some(wrote.value.id)
                                        else if Takes(r, input) == [] then r.awaiting else None)
            && forall key: nat :: key != r.key ==> AtWork(after, key) == AtWork(log, key)
  {
    hide AtWork, Accepted, Writes;
    var heard := log + Hears(r, input);
    LogOfHearing(log, r, input);
    if wrote.Some? {
      var e := Wrote(r.key, wrote.value);
      AcceptedSnoc(heard, e);
      ConcatNothing(Accepted(heard));
      forall key: nat ensures key != r.key ==> AtWork(heard + [e], key) == AtWork(heard, key) { AtWorkSnoc(heard, e, key); }
      AtWorkSnoc(heard, e, r.key);
    } else {
      ConcatNothing(heard);
      ConcatNothing(Writes(log));
    }
  }

  lemma {:induction false} LogOfHearing(log: seq<Entry>, r: Remote, input: Input)
    requires r.awaiting == AtWork(log, r.key)
    ensures var heard := log + Hears(r, input);
            && Accepted(heard) == Accepted(log) + Takes(r, input) && Writes(heard) == Writes(log)
            && AtWork(heard, r.key) == (if Takes(r, input) == [] then r.awaiting else None)
            && forall key: nat :: key != r.key ==> AtWork(heard, key) == AtWork(log, key)
  {
    hide AtWork, Accepted, Writes;
    ConcatNothing(Writes(log));
    if Hears(r, input) == [] {
      ConcatNothing(log);
      ConcatNothing(Accepted(log));
    } else {
      var e := Hears(r, input)[0];
      AcceptedSnoc(log, e);
      forall key: nat ensures key != r.key ==> AtWork(log + [e], key) == AtWork(log, key) { AtWorkSnoc(log, e, key); }
      AtWorkSnoc(log, e, r.key);
    }
  }

  lemma {:induction false} GenuineConcat(a: seq<Answer>, b: seq<Answer>)
    ensures Genuine(a + b) == Genuine(a) + Genuine(b)
  {
    if b == [] {
      ConcatNothing(a);
      ConcatNothing(Genuine(a));
    } else {
      SnocOfConcat(a, b);
      GenuineConcat(a, b[..|b| - 1]);
      ConcatAssociates(Genuine(a), Genuine(b[..|b| - 1]), if b[|b| - 1].genuine then [b[|b| - 1]] else []);
    }
  }

  lemma {:induction false} GenuineTakes(r: Remote, input: Input)
    ensures Genuine(Takes(r, input)) == Takes(r, input)
    ensures forall k :: 0 <= k < |Takes(r, input)| ==> Takes(r, input)[k].genuine
  {
    var taken := Takes(r, input);
    if taken != [] { assert taken[..0] == []; }
  }

  lemma {:induction false} NewTaken(results: seq<Answer>, taken: seq<Answer>)
    ensures New(results, results + taken) == taken
  {
  }

  lemma {:induction false} PollKeepsSourced(w: World, k: nat, input: Input)
    requires k < |w.remotes| && Heeds(w) && Sourced(w)
    ensures Sourced(PollOne(w, k, input))
  {
    hide Poll, Accepted, Genuine, Takes, Hears, AtWork, New, Writes;
    var r := w.remotes[k];
    var p := Poll(r, w.calls, w.results, input);
    PollTakes(r, w.calls, w.results, input);
    NewTaken(w.results, Takes(r, input));
    LogOfPoll(w.log, r, input, p.wrote);
    GenuineConcat(w.produced, Takes(r, input));
    GenuineTakes(r, input);
  }

  lemma {:induction false} PollKeepsHeeds(w: World, k: nat, input: Input)
    requires k < |w.remotes| && Heeds(w) && RemotesAre(w)
    ensures Heeds(PollOne(w, k, input))
  {
    hide Poll, Accepted, Takes, Hears, AtWork, New, Writes;
    var r := w.remotes[k];
    var p := Poll(r, w.calls, w.results, input);
    PollTakes(r, w.calls, w.results, input);
    LogOfPoll(w.log, r, input, p.wrote);
    var n := PollOne(w, k, input);
    assert n.log == w.log + Hears(r, input) + if p.wrote.Some? then [Wrote(r.key, p.wrote.value)] else [];
    forall j | 0 <= j < |n.remotes| ensures n.remotes[j].awaiting == AtWork(n.log, n.remotes[j].key) {
      if j == k {
        assert n.remotes[j] == p.remote;
      } else {
        assert n.remotes[j] == w.remotes[j] && w.remotes[j].key != r.key;
      }
    }
    assert r.key < n.joins;
    forall key: nat | key >= n.joins ensures AtWork(n.log, key) == None {
      assert AtWork(n.log, key) == AtWork(w.log, key);
    }
  }

  lemma {:induction false} ContainsMore(all: seq<Answer>, some: seq<Answer>, more: seq<Answer>)
    requires Contains(all, some)
    ensures Contains(all + more, some + more)
    ensures forall a :: a in all ==> a in all + more
  {
    forall k | 0 <= k < |some + more| ensures (some + more)[k] in all + more {
      if k < |some| { assert some[k] in all; } else { assert more[k - |some|] in more; }
    }
  }

  lemma {:induction false} PollKeepsKept(w: World, k: nat, input: Input)
    requires k < |w.remotes| && Kept(w)
    ensures Kept(PollOne(w, k, input))
  {
    hide Poll, Takes, Hears, New, Contains;
    var r := w.remotes[k];
    PollTakes(r, w.calls, w.results, input);
    NewTaken(w.results, Takes(r, input));
    ContainsMore(w.produced, w.results, Takes(r, input));
  }

  lemma {:induction false} PollKeepsTold(w: World, k: nat, input: Input)
    requires k < |w.remotes| && Heeds(w) && Told(w)
    ensures Told(PollOne(w, k, input))
  {
    hide Poll, Takes, Hears, AtWork, New, Writes, Accepted;
    var r := w.remotes[k];
    var p := Poll(r, w.calls, w.results, input);
    PollTakes(r, w.calls, w.results, input);
    LogOfPoll(w.log, r, input, p.wrote);
    hide OneCallAnId;
    FewerCalls(w.calls, p.calls, w.sent);
    if p.wrote.Some? { OneMoreSent(w.calls, p.calls, w.sent, Sent(r.key, p.wrote.value)); } else { ConcatNothing(w.sent); }
  }

  lemma {:induction false} FewerCalls(calls: seq<Call>, left: seq<Call>, sent: seq<Sent>)
    requires OneCallAnId(calls, sent) && forall k :: 0 <= k < |left| ==> left[k] in calls
    ensures OneCallAnId(left, sent)
  {
    forall k | 0 <= k < |left| ensures exists j :: 0 <= j < |calls| && calls[j] == left[k] { assert left[k] in calls; }
  }

  lemma {:induction false} OneMoreSent(calls: seq<Call>, left: seq<Call>, sent: seq<Sent>, s: Sent)
    requires OneCallAnId(calls, sent) && s.call in calls && forall k :: 0 <= k < |left| ==> left[k] in calls
    ensures OneCallAnId(left, sent + [s])
  {
    FewerCalls(calls, left, sent);
    var i :| 0 <= i < |calls| && calls[i] == s.call;
    forall k | 0 <= k < |left| ensures exists j :: 0 <= j < |calls| && calls[j] == left[k] { assert left[k] in calls; }
  }

  lemma {:induction false} PollKeepsFaithful(w: World, k: nat, input: Input)
    requires k < |w.remotes| && Faithful(w) && RemotesAre(w)
    ensures Faithful(PollOne(w, k, input))
  {
    hide PollOne, Heeds, Sourced, Kept, Told, RemotesAre;
    PollKeepsHeeds(w, k, input);
    PollKeepsSourced(w, k, input);
    PollKeepsKept(w, k, input);
    PollKeepsTold(w, k, input);
  }

  // ---- So does a tick ----

  lemma {:induction false} JoinKeepsFaithful(w: World, names: Option<set<string>>, now: int)
    requires Faithful(w)
    ensures Faithful(Join(w, names, now))
  {
    hide AtWork, Sourced, Kept, Told;
    SameNews(w, Join(w, names, now));
  }

  /** What the rest is about is left alone. */
  lemma {:induction false} SameNews(w: World, n: World)
    requires n.log == w.log && n.produced == w.produced && n.sent == w.sent && n.calls == w.calls
    requires n.results == w.results && n.claims == w.claims
    ensures Sourced(w) ==> Sourced(n)
    ensures Kept(w) ==> Kept(n)
    ensures Told(w) ==> Told(n)
    ensures n.remotes == w.remotes && n.joins == w.joins && Heeds(w) ==> Heeds(n)
  {
  }

  lemma {:induction false} PollAllKeepsFaithful(w: World, inputs: nat -> Input, n: nat)
    requires n <= |w.remotes| && Faithful(w) && InsideTick(w)
    ensures Faithful(PollAll(w, inputs, n))
  {
    hide Faithful, InsideTick, PollOne;
    if n > 0 {
      PollAllKeepsFaithful(w, inputs, n - 1);
      PollAllKeeps(w, inputs, n - 1);
      RemotesInside(PollAll(w, inputs, n - 1));
      PollKeepsFaithful(PollAll(w, inputs, n - 1), n - 1, inputs(n - 1));
    }
  }

  lemma {:induction false} RemotesInside(w: World)
    requires InsideTick(w)
    ensures RemotesAre(w)
  {
  }

  lemma {:induction false} NoGenuine(answers: seq<Answer>)
    requires forall k :: 0 <= k < |answers| ==> !answers[k].genuine
    ensures Genuine(answers) == []
  {
    if answers != [] { NoGenuine(answers[..|answers| - 1]); }
  }

  lemma {:induction false} TimeoutsSay(deadlines: seq<Deadline>, now: int)
    ensures forall k :: 0 <= k < |Timeouts(deadlines, now)| ==>
              var a := Timeouts(deadlines, now)[k]; !a.genuine && a.text == "Error: no response within 300 seconds."
  {
    hide Passed;
    if deadlines != [] { TimeoutsSay(deadlines[..|deadlines| - 1], now); }
  }

  lemma {:induction false} SweepKeepsFaithful(w: World, now: int)
    requires Faithful(w)
    ensures Faithful(SweepStep(w, now))
  {
    hide AtWork, Accepted, Genuine, Writes, Timeouts, CallsLeft, Contains, OneCallAnId;
    var late := Timeouts(w.deadlines, now);
    TimeoutsSay(w.deadlines, now);
    NoGenuine(late);
    GenuineConcat(w.produced, late);
    ConcatNothing(Genuine(w.produced));
    ContainsMore(w.produced, w.results, late);
    CallsLeftAre(w.calls, w.deadlines, now);
    FewerCalls(w.calls, CallsLeft(w.calls, w.deadlines, now), w.sent);
  }

  lemma {:induction false} DroppedFrom(results: seq<Answer>, marks: seq<Id>, all: seq<Answer>)
    requires Contains(all, results)
    ensures Contains(all, DropMarked(results, marks).results)
  {
    if results != [] {
      assert results[|results| - 1] in all;
      DroppedFrom(results[..|results| - 1], marks, all);
    }
  }

  lemma {:induction false} DropKeepsFaithful(w: World)
    requires Faithful(w)
    ensures Faithful(DropStep(w))
  {
    hide AtWork, Accepted, Genuine, Writes, Contains, OneCallAnId, DropMarked;
    DroppedFrom(w.results, w.marks, w.produced);
  }

  lemma {:induction false} BuryKeepsFaithful(w: World)
    requires Faithful(w)
    ensures Faithful(BuryStep(w))
  {
    hide AtWork, Sourced, Kept, Told, StillAlive;
    AliveAre(w.remotes);
    SameNews(w, BuryStep(w));
    var alive := StillAlive(w.remotes);
    forall k | 0 <= k < |alive| ensures exists j :: 0 <= j < |w.remotes| && w.remotes[j] == alive[k] {
      assert alive[k] in w.remotes;
    }
  }

  lemma {:induction false} TickKeepsFaithful(w: World, names: Option<set<string>>, inputs: nat -> Input, now: int)
    requires Faithful(w) && Inv(w)
    ensures Faithful(Tick(w, names, inputs, now))
  {
    hide Faithful, InsideTick, Settled, Join, PollAll, SweepStep, DropStep, BuryStep;
    var joined := Join(w, names, now);
    JoinKeeps(w, names, now);
    JoinKeepsFaithful(w, names, now);
    PollAllKeepsFaithful(joined, inputs, |joined.remotes|);
    var polled := PollJoined(joined, inputs);
    SettleKeepsFaithful(polled);
    SweepKeepsFaithful(SettleStep(polled), now);
    DropKeepsFaithful(SweepStep(SettleStep(polled), now));
    BuryKeepsFaithful(DropStep(SweepStep(SettleStep(polled), now)));
  }

  lemma {:induction false} SettleKeepsFaithful(w: World)
    requires Faithful(w)
    ensures Faithful(SettleStep(w))
  {
    hide Heeds, Sourced, Kept, Told, Unanswered;
    SameNews(w, SettleStep(w));
  }

  // ---- And every step ----

  lemma {:induction false} PutKeepsFaithful(w: World, instance: nat, id: Id, name: string, now: int)
    requires Faithful(w) && CallsAre(w) && SentOnce(w) && id !in w.owner
    ensures Faithful(Put(w, instance, id, name, now))
  {
    hide AtWork, Accepted, Genuine, Writes, Contains;
    var n := Put(w, instance, id, name, now);
    assert forall k :: 0 <= k < |w.calls| ==> w.calls[k].id != id && n.calls[k] == w.calls[k];
    assert forall k :: 0 <= k < |w.sent| ==> w.sent[k].call.id != id;
  }

  lemma {:induction false} AskKeepsFaithful(w: World, instance: nat, id: Id)
    requires Faithful(w)
    ensures Faithful(Ask(w, instance, id))
  {
    hide AtWork, Accepted, Genuine, Writes, Remove, OneCallAnId;
    var k := AnswerAt(w.results, id);
    if k < |w.results| {
      RemoveIs(w.results, k);
      assert w.results[k] in w.produced;
      forall j | 0 <= j < |w.results| - 1 ensures Remove(w.results, k)[j] in w.produced {
        assert w.results[if j < k then j else j + 1] in w.produced;
      }
    }
  }

  lemma {:induction false} StepKeepsFaithful(w: World, s: Step)
    requires Faithful(w) && Inv(w) && Enabled(w, s)
    ensures Faithful(Next(w, s))
  {
    hide Heeds, Sourced, Kept, Told, Put, Ask, Tick, Tracked, Timed, Recorded, Settled, Settling, MarksAre, Owned,
         CallsAre, RemotesAre, SentOnce, InTurn, OneAtATime;
    match s
    case DoOpen(instance) => SameNews(w, Next(w, s));
    case DoPut(instance, id, name, now) => PutKeepsFaithful(w, instance, id, name, now);
    case DoAsk(instance, id) => AskKeepsFaithful(w, instance, id);
    case DoLeave(instance) => SameNews(w, Next(w, s));
    case DoAbandon(id) => SameNews(w, Next(w, s));
    case DoTick(names, inputs, now) => TickKeepsFaithful(w, names, inputs, now);
  }

  lemma {:induction false} RunKeepsFaithful(w: World, steps: seq<Step>)
    requires Faithful(w) && Inv(w) && CanRun(w, steps)
    ensures Faithful(RunTo(w, steps))
    decreases |steps|
  {
    hide Faithful, Inv, Next, Enabled;
    if steps != [] {
      StepKeepsFaithful(w, steps[0]);
      StepKeepsInv(w, steps[0]);
      RunKeepsFaithful(Next(w, steps[0]), steps[1..]);
    }
  }

  lemma {:induction false} EveryRunIsFaithful(steps: seq<Step>, w: World)
    requires Reaches(steps, w)
    ensures Faithful(w) && Inv(w)
  {
    hide Inv, CanRun, RunTo;
    BeginIsFine();
    assert Faithful(Begin());
    hide Faithful;
    EveryRunKeepsInv(steps, w);
    RunKeepsFaithful(Begin(), steps);
  }

  // ---- What it means ----

  /** A remote is at a call exactly if that was written to it and since then nothing else was, and no result for it
      has come from there. */
  ghost predicate IsAt(log: seq<Entry>, j: nat, key: nat, id: Id) {
    && j < |log| && log[j].Wrote? && log[j].key == key && log[j].call.id == id
    && forall q :: j < q < |log| && log[q].key == key ==> log[q].Heard? && log[q].id != id
  }

  lemma {:induction false} AtWorkMeans(log: seq<Entry>, key: nat, id: Id)
    ensures AtWork(log, key) == Some(id) <==> exists j: nat :: IsAt(log, j, key, id)
  {
    if log != [] {
      var before, last := log[..|log| - 1], log[|log| - 1];
      AtWorkMeans(before, key, id);
      if AtWork(log, key) == Some(id) {
        if last.Wrote? && last.key == key {
          assert IsAt(log, |log| - 1, key, id);
        } else {
          var j: nat :| IsAt(before, j, key, id);
          assert IsAt(log, j, key, id);
        }
      }
      if exists j: nat :: IsAt(log, j, key, id) {
        var j: nat :| IsAt(log, j, key, id);
        if j < |before| {
          assert forall q :: 0 <= q < |before| ==> before[q] == log[q];
          assert IsAt(before, j, key, id);
        }
      }
    }
  }

  lemma {:induction false} AcceptedArrived(log: seq<Entry>, a: Answer) returns (p: nat)
    requires a in Accepted(log)
    ensures p < |log| && log[p].Heard? && a == Answer(log[p].id, true, log[p].text)
    ensures AtWork(log[..p], log[p].key) == Some(log[p].id)
  {
    hide AtWork;
    var before := log[..|log| - 1];
    if a in Accepted(before) {
      p := AcceptedArrived(before, a);
      TakeTake(log, p, |log| - 1);
    } else {
      p := |log| - 1;
    }
  }

  lemma {:induction false} GenuineIn(answers: seq<Answer>, a: Answer)
    requires a in answers && a.genuine
    ensures a in Genuine(answers)
  {
    if a != answers[|answers| - 1] { GenuineIn(answers[..|answers| - 1], a); }
  }

  lemma {:induction false} WriteAt(log: seq<Entry>, j: nat)
    requires j < |log| && log[j].Wrote?
    ensures |Writes(log[..j])| < |Writes(log)| && Writes(log)[|Writes(log[..j])|] == Sent(log[j].key, log[j].call)
  {
    if j < |log| - 1 {
      WriteAt(log[..|log| - 1], j);
      TakeTake(log, j, |log| - 1);
    }
  }

  /** A call is written at most once. */
  lemma {:induction false} WrittenOnce(w: World, i: nat, j: nat)
    requires Told(w) && SentOnce(w) && i < |w.log| && j < |w.log|
    requires w.log[i].Wrote? && w.log[j].Wrote? && w.log[i].call.id == w.log[j].call.id
    ensures i == j
  {
    hide Writes;
    WriteAt(w.log, i);
    WriteAt(w.log, j);
    if i < j {
      TakeTake(w.log, i, j);
      WriteAt(w.log[..j], i);
    } else if j < i {
      TakeTake(w.log, j, i);
      WriteAt(w.log[..i], j);
    }
  }

  /** In every run, an answer that a conversation claims and that is genuine is word for word the first result for
      its id that came from the remote its call was written to, after it was written, which happened once; any
      other answer it claims is the timeout error. */
  lemma {:induction false} ClaimIsWhatArrived(steps: seq<Step>, w: World, k: nat) returns (sent: nat, arrived: nat)
    requires Reaches(steps, w) && k < |w.claims|
    ensures var c := w.claims[k];
            if c.answer.genuine then
              && sent < arrived < |w.log| && w.log[sent].Wrote? && w.log[sent].call.id == c.id
              && w.log[arrived] == Heard(w.log[sent].key, c.id, c.answer.text)
              && (forall q :: sent < q < arrived && w.log[q].Heard? ==> w.log[q].key != w.log[sent].key || w.log[q].id != c.id)
              && (forall i :: 0 <= i < |w.log| && w.log[i].Wrote? && w.log[i].call.id == c.id ==> i == sent)
            else c.answer.text == "Error: no response within 300 seconds."
  {
    hide Reaches, AtWork, Accepted, Genuine, Writes;
    EveryRunIsFaithful(steps, w);
    ClaimIsOwn(w, k);
    var c := w.claims[k];
    sent, arrived := 0, 0;
    if c.answer.genuine {
      GenuineIn(w.produced, c.answer);
      arrived := AcceptedArrived(w.log, c.answer);
      var before, key := w.log[..arrived], w.log[arrived].key;
      AtWorkMeans(before, key, c.id);
      sent :| IsAt(before, sent, key, c.id);
      SentBefore(w, sent, arrived, key, c.id);
    } else {
      OthersAreTimeouts(w, c.answer);
    }
  }

  lemma {:induction false} ClaimIsOwn(w: World, k: nat)
    requires Inv(w) && Kept(w) && k < |w.claims|
    ensures w.claims[k].answer.id == w.claims[k].id && w.claims[k].answer in w.produced
  {
  }

  lemma {:induction false} OthersAreTimeouts(w: World, a: Answer)
    requires Sourced(w) && a in w.produced && !a.genuine
    ensures a.text == "Error: no response within 300 seconds."
  {
    hide Genuine, Accepted;
  }

  lemma {:induction false} SentBefore(w: World, sent: nat, arrived: nat, key: nat, id: Id)
    requires Inv(w) && Told(w) && arrived <= |w.log| && IsAt(w.log[..arrived], sent, key, id)
    ensures sent < arrived && w.log[sent].Wrote? && w.log[sent].call.id == id && w.log[sent].key == key
    ensures forall q :: sent < q < arrived && w.log[q].Heard? ==> w.log[q].key != key || w.log[q].id != id
    ensures forall i :: 0 <= i < |w.log| && w.log[i].Wrote? && w.log[i].call.id == id ==> i == sent
  {
    hide Told;
    var before := w.log[..arrived];
    assert forall q :: 0 <= q < arrived ==> before[q] == w.log[q];
    forall i | 0 <= i < |w.log| && w.log[i].Wrote? && w.log[i].call.id == id ensures i == sent {
      WrittenOnce(w, i, sent);
    }
  }

  /** In every run the genuine answers are exactly the results that came from a remote at their call, in the order
      they came: none is made up, changed, lost or doubled on its way to the queue. */
  lemma {:induction false} GenuineIsAccepted(steps: seq<Step>, w: World)
    requires Reaches(steps, w)
    ensures Genuine(w.produced) == Accepted(w.log)
  {
    hide Reaches, Genuine, Accepted, Inv, Heeds, Kept, Told;
    EveryRunIsFaithful(steps, w);
  }

  // ---- Who is asked, who is given up, and when ----

  /** A poll writes a call only to a remote that has a tool of its name, and the oldest such call; a living remote
      that is free after its poll has nothing to do. */
  lemma {:induction false} EachGetsItsOwn(r: Remote, calls: seq<Call>, results: seq<Answer>, input: Input)
    ensures var p := Poll(r, calls, results, input);
            && (p.wrote.Some? ==>
                  exists k :: 0 <= k < |calls| && p.wrote.value == calls[k] && calls[k].name in r.names
                              && forall j :: 0 <= j < k ==> calls[j].name !in r.names)
            && (p.remote.alive && p.remote.awaiting.None? ==> forall k :: 0 <= k < |p.calls| ==> p.calls[k].name !in r.names)
  {
    hide Receive, Heartbeat, Remove;
    ReceiveMeans(r, results, input);
    var (heard, answered) := Receive(r, results, input);
    HeartbeatMeans(heard, input);
  }

  /** A remote is given up only when its connection has ended, a pong, a ping that was due or a call could not be
      written, or nothing was heard from it for 15 seconds. */
  lemma {:induction false} GivenUpOnlyFor(r: Remote, calls: seq<Call>, results: seq<Answer>, input: Input)
    requires r.alive && !Poll(r, calls, results, input).remote.alive
    ensures || input.arrival == Closed
            || (input.arrival == Line(Ping) && !input.pongSent)
            || (!input.pingSent && input.now - r.lastSent >= 5_000_000_000)
            || (!input.callSent && exists k :: 0 <= k < |calls| && calls[k].name in r.names)
            || (!input.arrival.Line? && input.now - r.lastReceived >= 15_000_000_000)
  {
    hide Remove, OldestFor, HasAnswer;
    var (heard, answered) := Receive(r, results, input);
    HeardTimes(r, results, input);
    if heard.alive {
      if !Heartbeat(heard, input).alive { BeatEnds(heard, input); }
      HeartbeatMeans(heard, input);
      ReceiveMeans(r, results, input);
      var k := OldestFor(calls, r.names);
      if k < |calls| { assert calls[k].name in r.names; }
    }
  }

  lemma {:induction false} HeardTimes(r: Remote, results: seq<Answer>, input: Input)
    requires r.alive
    ensures var (heard, _) := Receive(r, results, input);
            && (heard.alive <==> input.arrival != Closed && (input.arrival == Line(Ping) ==> input.pongSent))
            && heard.lastReceived == (if input.arrival.Line? then input.now else r.lastReceived)
            && (heard.lastSent == r.lastSent || heard.lastSent == input.now)
  {
  }

  lemma {:induction false} BeatEnds(r: Remote, input: Input)
    requires r.alive && !Heartbeat(r, input).alive
    ensures (!input.pingSent && input.now - r.lastSent >= 5_000_000_000) || input.now - r.lastReceived >= 15_000_000_000
  {
    WholeSeconds(input.now - r.lastSent, 5);
    WholeSeconds(input.now - r.lastReceived, 15);
    hide Passed;
    assert Passed(r.lastSent, input.now, PING_INTERVAL_SECONDS) ==> input.now - r.lastSent >= 5_000_000_000 by {
      PassedMeans(r.lastSent, input.now, 5);
    }
    assert Passed(r.lastReceived, input.now, DEAD_TIMEOUT_SECONDS) ==> input.now - r.lastReceived >= 15_000_000_000 by {
      PassedMeans(r.lastReceived, input.now, 15);
    }
  }

  lemma {:induction false} WholeSeconds(time: int, seconds: int)
    ensures time / 1_000_000_000 >= seconds <==> time >= seconds * 1_000_000_000
  {
  }

  lemma {:induction false} PassedMeans(since: int, now: int, seconds: int)
    ensures Passed(since, now, seconds) <==> now - since >= seconds * 1_000_000_000
  {
    WholeSeconds(now - since, seconds);
  }

  lemma {:induction false} TimeoutsAreLate(deadlines: seq<Deadline>, now: int, since: map<Id, int>)
    requires TimesAre(deadlines, since)
    ensures forall k :: 0 <= k < |Timeouts(deadlines, now)| ==>
              var id := Timeouts(deadlines, now)[k].id; id in since && now - since[id] >= 300_000_000_000
  {
    if deadlines != [] {
      var last := deadlines[|deadlines| - 1];
      TimeoutsAreLate(deadlines[..|deadlines| - 1], now, since);
      PassedMeans(last.since, now, 300);
      assert last.id in since;
    }
  }

  /** No call is given up early: an error that a tick of any run produces is for a call that was put 300 seconds before or more. */
  lemma {:induction false} NoEarlyTimeout(steps: seq<Step>, w: World, names: Option<set<string>>, inputs: nat -> Input,
      now: int, k: nat)
    requires Reaches(steps, w)
    requires |w.produced| <= k < |Tick(w, names, inputs, now).produced| && !Tick(w, names, inputs, now).produced[k].genuine
    ensures var id := Tick(w, names, inputs, now).produced[k].id; id in w.since && now - w.since[id] >= 300_000_000_000
  {
    hide Reaches, InsideTick, Settled, Faithful, PollAll, HasDeadline, HasAnswer;
    EveryRunIsFaithful(steps, w);
    var joined := Join(w, names, now);
    JoinKeeps(w, names, now);
    JoinKeepsFaithful(w, names, now);
    PollAllKeeps(joined, inputs, |joined.remotes|);
    PollAllLeaves(joined, inputs, |joined.remotes|);
    PollAllProducesGenuine(joined, inputs, |joined.remotes|);
    var polled := PollJoined(joined, inputs);
    SettleKeeps(polled);
    var settled := SettleStep(polled);
    TimesInside(settled);
    TimeoutsAreLate(settled.deadlines, now, settled.since);
    ProducedInTick(w, names, inputs, now);
  }

  lemma {:induction false} TimesInside(w: World)
    requires InsideTick(w)
    ensures TimesAre(w.deadlines, w.since)
  {
    hide Tracked, Recorded, Settling, MarksAre, Owned, Queues, HasDeadline, HasAnswer;
  }

  lemma {:induction false} ProducedInTick(w: World, names: Option<set<string>>, inputs: nat -> Input, now: int)
    ensures var polled := PollJoined(Join(w, names, now), inputs);
            Tick(w, names, inputs, now).produced == polled.produced + Timeouts(SettleStep(polled).deadlines, now)
  {
    hide PollAll, Timeouts, DropMarked, StillAlive, Unanswered, Running, CallsLeft;
  }

  lemma {:induction false} PollAllProducesGenuine(w: World, inputs: nat -> Input, n: nat)
    requires n <= |w.remotes|
    ensures var after := PollAll(w, inputs, n).produced;
            |w.produced| <= |after| && forall k :: |w.produced| <= k < |after| ==> after[k].genuine
  {
    hide Poll, PollOne;
    if n > 0 {
      PollAllProducesGenuine(w, inputs, n - 1);
      var before, input := PollAll(w, inputs, n - 1), inputs(n - 1);
      PollProduces(before, n - 1, input);
      GenuineTakes(before.remotes[n - 1], input);
      hide Takes;
    }
  }

  lemma {:induction false} PollProduces(w: World, k: nat, input: Input)
    requires k < |w.remotes|
    ensures PollOne(w, k, input).produced == w.produced + Takes(w.remotes[k], input)
  {
    hide Poll, Takes, New, Hears;
    PollTakes(w.remotes[k], w.calls, w.results, input);
    NewTaken(w.results, Takes(w.remotes[k], input));
  }
}
