/** Many conversations sharing one tool worker with many remote tools: calls are put, the worker ticks,
    results are claimed, and conversations end with calls still open (source/tool_worker.cpp,
    source/remote_tools.cpp, source/tools.cpp, source/ai_root.cpp).  Each step is what its code does while
    it holds the worker's mutex. */
module ToolProtocol {
  import opened Options
  import opened Sequences
  import opened ToolQueues

  /** Where an id's story stands: a live conversation waits for it, its conversation is gone and about to
      say so, it is marked as abandoned, or it is over (claimed, or dropped). */
  datatype Owner = Waits(instance: nat) | Orphaned | Marked | Over

  datatype Claim = Claim(instance: nat, id: Id, answer: Answer)

  datatype Sent = Sent(key: nat, call: Call)

  /** What went between the worker and its remotes, in order: a call written to a remote, and a result message
      that a living remote sent, whether anyone waits for it or not. */
  datatype Entry = Wrote(key: nat, call: Call) | Heard(key: nat, id: Id, text: string)

  datatype World = World(
    // the worker's variables
    calls: seq<Call>, results: seq<Answer>, deadlines: seq<Deadline>, marks: seq<Id>, remotes: seq<Remote>,
    // the conversations: which of them live, and where each id's story stands
    live: set<nat>, owner: map<Id, Owner>,
    // what happened so far
    asker: map<Id, nat>, since: map<Id, int>, produced: seq<Answer>, claims: seq<Claim>, sent: seq<Sent>,
    log: seq<Entry>, puts: nat, joins: nat)

  function Begin(): World {
    World([], [], [], [], [], {}, map[], map[], map[], [], [], [], [], 0, 0)
  }

  // ---- Steps of the conversations ----

  function Open(w: World, instance: nat): World {
    w.(live := w.live + {instance})
  }

  /** Dispatching a call no built-in tool takes. */
  function Put(w: World, instance: nat, id: Id, name: string, now: int): World {
    w.(calls := w.calls + [Call(id, name, w.puts)], deadlines := w.deadlines + [Deadline(id, now)],
       owner := w.owner[id := Waits(instance)], asker := w.asker[id := instance], since := w.since[id := now], puts := w.puts + 1)
  }

  /** Asking for the result of one id the conversation waits for. */
  function Ask(w: World, instance: nat, id: Id): World {
    var k := AnswerAt(w.results, id);
    if k == |w.results| then w
    else w.(results := Remove(w.results, k), owner := w.owner[id := Over],
            claims := w.claims + [Claim(instance, id, w.results[k])])
  }

  /** A conversation ends: nothing is claimed any more for what it waited for. */
  function Leave(w: World, instance: nat): World {
    w.(live := w.live - {instance},
       owner := map id | id in w.owner :: if w.owner[id] == Waits(instance) then Orphaned else w.owner[id])
  }

  /** Telling the worker about one id of a conversation that has ended. */
  function Abandon(w: World, id: Id): World {
    w.(marks := w.marks + [id], owner := w.owner[id := Marked])
  }

  // ---- A tick of the worker ----

  /** One remote polled. */
  function PollOne(w: World, k: nat, input: Input): World
    requires k < |w.remotes|
  {
    var r := w.remotes[k];
    var p := Poll(r, w.calls, w.results, input);
    w.(remotes := w.remotes[k := p.remote], calls := p.calls, results := p.results,
       produced := w.produced + New(w.results, p.results),
       sent := w.sent + (if p.wrote.Some? then [Sent(r.key, p.wrote.value)] else []),
       log := w.log + Hears(r, input) + if p.wrote.Some? then [Wrote(r.key, p.wrote.value)] else [])
  }

  function Hears(r: Remote, input: Input): seq<Entry> {
    if r.alive && input.arrival.Line? && input.arrival.msg.Result? then
      [Heard(r.key, input.arrival.msg.id, input.arrival.msg.text)]
    else []
  }

  function New(before: seq<Answer>, after: seq<Answer>): seq<Answer> {
    if |before| <= |after| then after[|before|..] else []
  }

  /** The first n remotes polled, one after the other. */
  function PollAll(w: World, inputs: nat -> Input, n: nat): (after: World)
    requires n <= |w.remotes|
    ensures |after.remotes| == |w.remotes|
  {
    if n == 0 then w else PollOne(PollAll(w, inputs, n - 1), n - 1, inputs(n - 1))
  }

  function StillAlive(remotes: seq<Remote>): seq<Remote> {
    if remotes == [] then []
    else StillAlive(remotes[..|remotes| - 1]) + if remotes[|remotes| - 1].alive then [remotes[|remotes| - 1]] else []
  }

  function Join(w: World, names: Option<set<string>>, now: int): World {
    match names
    case None => w
    case Some(ns) => w.(remotes := w.remotes + [Remote(w.joins, ns, true, None, now, now)], joins := w.joins + 1)
  }

  function PollJoined(w: World, inputs: nat -> Input): World {
    PollAll(w, inputs, |w.remotes|)
  }

  function SettleStep(w: World): World {
    w.(deadlines := Unanswered(w.deadlines, w.results))
  }

  function SweepStep(w: World, now: int): World {
    w.(deadlines := Running(w.deadlines, now), calls := CallsLeft(w.calls, w.deadlines, now),
       results := w.results + Timeouts(w.deadlines, now), produced := w.produced + Timeouts(w.deadlines, now))
  }

  function DropStep(w: World): World {
    var d := DropMarked(w.results, w.marks);
    w.(results := d.results, marks := d.marks,
       owner := map id | id in w.owner :: if w.owner[id] == Marked && id !in d.marks then Over else w.owner[id])
  }

  function BuryStep(w: World): World {
    w.(remotes := StillAlive(w.remotes))
  }

  function Tick(w: World, names: Option<set<string>>, inputs: nat -> Input, now: int): World {
    BuryStep(DropStep(SweepStep(SettleStep(PollJoined(Join(w, names, now), inputs)), now)))
  }

  datatype Step =
    | DoOpen(instance: nat)
    | DoPut(instance: nat, id: Id, name: string, now: int)
    | DoAsk(instance: nat, id: Id)
    | DoLeave(instance: nat)
    | DoAbandon(id: Id)
    | DoTick(names: Option<set<string>>, inputs: nat -> Input, now: int)

  /** Ids are never used twice; only a live conversation puts or asks, and it asks only for what it waits for. */
  ghost predicate Enabled(w: World, s: Step) {
    match s
    case DoOpen(_) => true
    case DoPut(instance, id, _, _) => instance in w.live && id !in w.owner
    case DoAsk(instance, id) => id in w.owner && w.owner[id] == Waits(instance)
    case DoLeave(_) => true
    case DoAbandon(id) => id in w.owner && w.owner[id] == Orphaned
    case DoTick(_, _, _) => true
  }

  function Next(w: World, s: Step): World {
    match s
    case DoOpen(instance) => Open(w, instance)
    case DoPut(instance, id, name, now) => Put(w, instance, id, name, now)
    case DoAsk(instance, id) => Ask(w, instance, id)
    case DoLeave(instance) => Leave(w, instance)
    case DoAbandon(id) => Abandon(w, id)
    case DoTick(names, inputs, now) => Tick(w, names, inputs, now)
  }

  // ---- Invariants ----

  /** An id whose story is not over still has a deadline or a waiting result. */
  ghost predicate Tracked(w: World) {
    forall id :: id in w.owner && w.owner[id] != Over ==> HasDeadline(w.deadlines, id) || HasAnswer(w.results, id)
  }

  /** Every id has a deadline or an answer was produced for it, and deadlines keep the time of the put. */
  ghost predicate Timed(w: World) {
    && w.since.Keys == w.owner.Keys
    && TimesAre(w.deadlines, w.since)
    && (forall id :: id in w.owner ==> HasDeadline(w.deadlines, id) || HasAnswer(w.produced, id))
  }

  /** Every waiting result was produced once. */
  ghost predicate Recorded(w: World) {
    forall id :: HasAnswer(w.results, id) ==> HasAnswer(w.produced, id)
  }

  ghost predicate NoLateTimeout(produced: seq<Answer>) {
    forall j, k :: 0 <= j < k < |produced| && produced[j].genuine && produced[j].id == produced[k].id ==> produced[k].genuine
  }

  /** Inside a tick: an id with a genuine answer may keep its deadline only while the answer waits. */
  ghost predicate Settling(w: World) {
    && (forall k :: 0 <= k < |w.produced| ==> w.produced[k].id in w.owner)
    && (forall k :: 0 <= k < |w.produced| && w.produced[k].genuine ==>
          !HasDeadline(w.deadlines, w.produced[k].id) || HasAnswer(w.results, w.produced[k].id))
    && NoLateTimeout(w.produced)
  }

  /** Between steps: an id with a genuine answer has no deadline, so no timeout can follow. */
  ghost predicate Settled(w: World) {
    && Settling(w)
    && (forall k :: 0 <= k < |w.produced| && w.produced[k].genuine ==> !HasDeadline(w.deadlines, w.produced[k].id))
  }

  ghost predicate MarksAre(w: World) {
    NoTwice(w.marks) && forall id :: id in w.marks <==> id in w.owner && w.owner[id] == Marked
  }

  /** Only its own conversation waits for an id, and each id is claimed at most once, by that conversation. */
  ghost predicate Owned(w: World) {
    && w.asker.Keys == w.owner.Keys
    && (forall id :: id in w.owner && w.owner[id].Waits? ==> w.owner[id].instance in w.live && w.asker[id] == w.owner[id].instance)
    && (forall k :: 0 <= k < |w.claims| ==>
          && w.claims[k].id in w.owner && w.owner[w.claims[k].id] == Over
          && w.asker[w.claims[k].id] == w.claims[k].instance
          && w.claims[k].answer.id == w.claims[k].id)
    && (forall j, k :: 0 <= j < k < |w.claims| ==> w.claims[j].id != w.claims[k].id)
  }

  /** Calls queue in the order they were put. */
  ghost predicate CallsAre(w: World) {
    && (forall k :: 0 <= k < |w.calls| ==> w.calls[k].id in w.owner && w.calls[k].number < w.puts)
    && (forall j, k :: 0 <= j < k < |w.calls| ==> w.calls[j].number < w.calls[k].number)
  }

  ghost predicate RemotesAre(w: World) {
    && (forall k :: 0 <= k < |w.remotes| ==>
          w.remotes[k].key < w.joins && (w.remotes[k].awaiting.Some? ==> w.remotes[k].awaiting.value in w.owner))
    && (forall j, k :: 0 <= j < k < |w.remotes| ==> w.remotes[j].key < w.remotes[k].key)
  }

  /** No call is written twice, to one remote or to two, or written and still queued; each remote gets its
      calls in the order they were put. */
  ghost predicate SentOnce(w: World) {
    && (forall k :: 0 <= k < |w.sent| ==> w.sent[k].key < w.joins && w.sent[k].call.id in w.owner && w.sent[k].call.number < w.puts)
    && (forall j, k :: 0 <= j < k < |w.sent| ==> w.sent[j].call.number != w.sent[k].call.number)
    && (forall j, k :: 0 <= j < |w.sent| && 0 <= k < |w.calls| ==> w.sent[j].call.number != w.calls[k].number)
    && (forall j, k :: 0 <= j < k < |w.sent| && w.sent[j].key == w.sent[k].key ==> w.sent[j].call.number < w.sent[k].call.number)
  }

  /** What waits in the queue for a remote is younger than all it was given. */
  ghost predicate InTurn(w: World) {
    forall i, j, k :: 0 <= i < |w.remotes| && 0 <= j < |w.sent| && 0 <= k < |w.calls| ==>
      (w.sent[j].key == w.remotes[i].key && w.calls[k].name in w.remotes[i].names ==> w.sent[j].call.number < w.calls[k].number)
  }

  ghost predicate HasGenuine(produced: seq<Answer>, id: Id) {
    exists k :: 0 <= k < |produced| && produced[k].genuine && produced[k].id == id
  }

  /** A remote works on one call at a time: all it was given before the one it is at have been answered. */
  ghost predicate OneAtATime(w: World) {
    forall i, j :: 0 <= i < |w.remotes| && 0 <= j < |w.sent| && w.sent[j].key == w.remotes[i].key ==>
      w.remotes[i].awaiting == Some(w.sent[j].call.id) || HasGenuine(w.produced, w.sent[j].call.id)
  }

  // ---- Steps of the conversations keep them ----

  lemma {:induction false} PutKeepsTracked(w: World, instance: nat, id: Id, name: string, now: int)
    requires Tracked(w) && id !in w.owner
    ensures Tracked(Put(w, instance, id, name, now))
  {
    hide HasDeadline, HasAnswer;
    forall other | other in w.owner || other == id
      ensures HasDeadline(w.deadlines + [Deadline(id, now)], other) == (HasDeadline(w.deadlines, other) || other == id)
    {
      DeadlineMore(w.deadlines, Deadline(id, now), other);
    }
  }

  lemma {:induction false} PutKeepsTimed(w: World, instance: nat, id: Id, name: string, now: int)
    requires Timed(w) && id !in w.owner
    ensures Timed(Put(w, instance, id, name, now))
  {
    hide HasDeadline, HasAnswer;
    forall other | other in w.owner || other == id
      ensures HasDeadline(w.deadlines + [Deadline(id, now)], other) == (HasDeadline(w.deadlines, other) || other == id)
    {
      DeadlineMore(w.deadlines, Deadline(id, now), other);
    }
  }

  lemma {:induction false} PutKeepsSettled(w: World, instance: nat, id: Id, name: string, now: int)
    requires Settled(w) && id !in w.owner
    ensures Settled(Put(w, instance, id, name, now))
  {
    hide HasDeadline, HasAnswer, NoLateTimeout;
    forall k | 0 <= k < |w.produced|
      ensures HasDeadline(w.deadlines + [Deadline(id, now)], w.produced[k].id) == HasDeadline(w.deadlines, w.produced[k].id)
    {
      DeadlineMore(w.deadlines, Deadline(id, now), w.produced[k].id);
    }
  }

  lemma {:induction false} PutKeepsOwned(w: World, instance: nat, id: Id, name: string, now: int)
    requires Owned(w) && MarksAre(w) && id !in w.owner && instance in w.live
    ensures Owned(Put(w, instance, id, name, now)) && MarksAre(Put(w, instance, id, name, now))
  {
    hide NoTwice;
  }

  lemma {:induction false} PutKeepsQueues(w: World, instance: nat, id: Id, name: string, now: int)
    requires CallsAre(w) && RemotesAre(w) && SentOnce(w) && InTurn(w) && OneAtATime(w)
    ensures var n := Put(w, instance, id, name, now); CallsAre(n) && RemotesAre(n) && SentOnce(n) && InTurn(n) && OneAtATime(n)
  {
    hide HasGenuine;
  }

  lemma {:induction false} AskKeepsTracked(w: World, instance: nat, id: Id)
    requires Tracked(w)
    ensures Tracked(Ask(w, instance, id))
  {
    hide HasDeadline, HasAnswer, Remove;
    var k := AnswerAt(w.results, id);
    if k < |w.results| {
      forall other | other in w.owner && other != id
        ensures HasAnswer(Remove(w.results, k), other) == HasAnswer(w.results, other)
      {
        RemovedAnswer(w.results, k, other);
      }
    }
  }

  lemma {:induction false} AskKeepsRecorded(w: World, instance: nat, id: Id)
    requires Recorded(w)
    ensures Recorded(Ask(w, instance, id))
  {
    hide HasAnswer, Remove;
    var k := AnswerAt(w.results, id);
    if k < |w.results| {
      forall other | HasAnswer(Remove(w.results, k), other)
        ensures HasAnswer(w.results, other)
      {
        if other != id { RemovedAnswer(w.results, k, other); } else { AnswerAtMeans(w.results, id); }
      }
    }
  }

  lemma {:induction false} AskKeepsOwned(w: World, instance: nat, id: Id)
    requires Owned(w) && MarksAre(w) && id in w.owner && w.owner[id] == Waits(instance)
    ensures Owned(Ask(w, instance, id)) && MarksAre(Ask(w, instance, id))
  {
    hide NoTwice, Remove;
  }

  lemma {:induction false} AskKeepsRest(w: World, instance: nat, id: Id)
    requires Settled(w) && Timed(w) && id in w.owner
    ensures Settled(Ask(w, instance, id)) && Timed(Ask(w, instance, id))
  {
    hide HasDeadline, HasAnswer, Remove, NoLateTimeout;
  }

  lemma {:induction false} AskKeepsQueues(w: World, instance: nat, id: Id)
    requires CallsAre(w) && RemotesAre(w) && SentOnce(w) && InTurn(w) && OneAtATime(w) && id in w.owner
    ensures var n := Ask(w, instance, id); CallsAre(n) && RemotesAre(n) && SentOnce(n) && InTurn(n) && OneAtATime(n)
  {
    hide HasGenuine, Remove;
  }

  lemma {:induction false} LeaveKeeps(w: World, instance: nat)
    requires Tracked(w) && Owned(w) && MarksAre(w) && Timed(w) && Settled(w)
    ensures var n := Leave(w, instance); Tracked(n) && Owned(n) && MarksAre(n) && Timed(n) && Settled(n)
  {
    hide HasDeadline, HasAnswer, NoTwice, NoLateTimeout;
    assert Leave(w, instance).owner.Keys == w.owner.Keys;
  }

  lemma {:induction false} LeaveKeepsQueues(w: World, instance: nat)
    requires CallsAre(w) && RemotesAre(w) && SentOnce(w) && InTurn(w) && OneAtATime(w)
    ensures var n := Leave(w, instance); CallsAre(n) && RemotesAre(n) && SentOnce(n) && InTurn(n) && OneAtATime(n)
  {
    hide HasGenuine;
    assert Leave(w, instance).owner.Keys == w.owner.Keys;
  }

  lemma {:induction false} AbandonKeeps(w: World, id: Id)
    requires Tracked(w) && Owned(w) && MarksAre(w) && Timed(w) && Settled(w) && id in w.owner && w.owner[id] == Orphaned
    ensures var n := Abandon(w, id); Tracked(n) && Owned(n) && MarksAre(n) && Timed(n) && Settled(n)
  {
    hide HasDeadline, HasAnswer, NoLateTimeout;
  }

  lemma {:induction false} AbandonKeepsQueues(w: World, id: Id)
    requires CallsAre(w) && RemotesAre(w) && SentOnce(w) && InTurn(w) && OneAtATime(w) && id in w.owner
    ensures var n := Abandon(w, id); CallsAre(n) && RemotesAre(n) && SentOnce(n) && InTurn(n) && OneAtATime(n)
  {
    hide HasGenuine;
  }

  // ---- The parts of a tick keep them ----

  ghost predicate Queues(w: World) {
    CallsAre(w) && RemotesAre(w) && SentOnce(w) && InTurn(w) && OneAtATime(w)
  }

  lemma {:induction false} JoinKeepsQueues(w: World, names: Option<set<string>>, now: int)
    requires Queues(w)
    ensures Queues(Join(w, names, now))
  {
    hide HasGenuine;
  }

  lemma {:induction false} NewIs(before: seq<Answer>, after: seq<Answer>)
    ensures after == before ==> New(before, after) == []
    ensures |after| == |before| + 1 && after == before + [after[|before|]] ==> New(before, after) == [after[|before|]]
  {
  }

  lemma {:induction false} PollKeepsTracked(w: World, k: nat, input: Input)
    requires k < |w.remotes| && Tracked(w)
    ensures Tracked(PollOne(w, k, input))
  {
    hide HasDeadline, HasAnswer, Poll;
    PollMeans(w.remotes[k], w.calls, w.results, input);
    var p := Poll(w.remotes[k], w.calls, w.results, input);
    if p.results != w.results {
      forall id | id in w.owner && HasAnswer(w.results, id) ensures HasAnswer(p.results, id) {
        AnswerMore(w.results, [p.results[|w.results|]], id);
      }
    }
  }

  lemma {:induction false} PollKeepsTimed(w: World, k: nat, input: Input)
    requires k < |w.remotes| && Timed(w)
    ensures Timed(PollOne(w, k, input))
  {
    hide HasDeadline, HasAnswer, Poll, New;
    var p := Poll(w.remotes[k], w.calls, w.results, input);
    forall id | id in w.owner && HasAnswer(w.produced, id) ensures HasAnswer(w.produced + New(w.results, p.results), id) {
      AnswerMore(w.produced, New(w.results, p.results), id);
    }
  }

  lemma {:induction false} PollKeepsRecorded(w: World, k: nat, input: Input)
    requires k < |w.remotes| && Recorded(w)
    ensures Recorded(PollOne(w, k, input))
  {
    hide HasDeadline, HasAnswer, Poll, New;
    PollMeans(w.remotes[k], w.calls, w.results, input);
    var p := Poll(w.remotes[k], w.calls, w.results, input);
    NewIs(w.results, p.results);
    forall id | HasAnswer(p.results, id) ensures HasAnswer(w.produced + New(w.results, p.results), id) {
      AnswerMore(w.produced, New(w.results, p.results), id);
      if p.results != w.results { AnswerMore(w.results, [p.results[|w.results|]], id); }
    }
  }

  lemma {:induction false} PollKeepsSettling(w: World, k: nat, input: Input)
    requires k < |w.remotes| && Settling(w) && RemotesAre(w)
    ensures Settling(PollOne(w, k, input))
  {
    hide HasDeadline, HasAnswer, Poll, New;
    PollMeans(w.remotes[k], w.calls, w.results, input);
    var p := Poll(w.remotes[k], w.calls, w.results, input);
    NewIs(w.results, p.results);
    if p.results == w.results {
      ConcatNothing(w.produced);
    } else {
      var a := p.results[|w.results|];
      forall id | HasAnswer(w.results, id) || id == a.id ensures HasAnswer(p.results, id) {
        AnswerMore(w.results, [a], id);
        AnswerOne(a, id);
      }
    }
  }

  lemma {:induction false} PollKeepsOthers(w: World, k: nat, input: Input)
    requires k < |w.remotes| && MarksAre(w) && Owned(w)
    ensures MarksAre(PollOne(w, k, input)) && Owned(PollOne(w, k, input))
  {
    hide Poll, NoTwice;
  }

  lemma {:induction false} PollKeepsCalls(w: World, k: nat, input: Input)
    requires k < |w.remotes| && CallsAre(w) && RemotesAre(w)
    ensures CallsAre(PollOne(w, k, input)) && RemotesAre(PollOne(w, k, input))
  {
    hide Poll, Remove, New;
    PollMeans(w.remotes[k], w.calls, w.results, input);
    var p := Poll(w.remotes[k], w.calls, w.results, input);
    if p.wrote.Some? { RemoveIs(w.calls, OldestFor(w.calls, w.remotes[k].names)); }
  }

  lemma {:induction false} PollKeepsSent(w: World, k: nat, input: Input)
    requires k < |w.remotes| && CallsAre(w) && RemotesAre(w) && SentOnce(w) && InTurn(w)
    ensures SentOnce(PollOne(w, k, input))
  {
    hide Poll, Remove, New;
    PollMeans(w.remotes[k], w.calls, w.results, input);
    var p := Poll(w.remotes[k], w.calls, w.results, input);
    if p.wrote.Some? { RemoveIs(w.calls, OldestFor(w.calls, w.remotes[k].names)); } else { ConcatNothing(w.sent); }
  }

  lemma {:induction false} PollKeepsTurn(w: World, k: nat, input: Input)
    requires k < |w.remotes| && CallsAre(w) && RemotesAre(w) && InTurn(w)
    ensures InTurn(PollOne(w, k, input))
  {
    hide Poll, Remove, New;
    PollMeans(w.remotes[k], w.calls, w.results, input);
    var p := Poll(w.remotes[k], w.calls, w.results, input);
    if p.wrote.Some? { RemoveIs(w.calls, OldestFor(w.calls, w.remotes[k].names)); } else { ConcatNothing(w.sent); }
  }

  lemma {:induction false} PollKeepsOneAtATime(w: World, k: nat, input: Input)
    requires k < |w.remotes| && CallsAre(w) && RemotesAre(w) && OneAtATime(w)
    ensures OneAtATime(PollOne(w, k, input))
  {
    hide Poll, Remove, New;
    PollMeans(w.remotes[k], w.calls, w.results, input);
    var p := Poll(w.remotes[k], w.calls, w.results, input);
    NewIs(w.results, p.results);
    var after := w.produced + New(w.results, p.results);
    forall id | HasGenuine(w.produced, id) || (p.results != w.results && w.remotes[k].awaiting == Some(id))
      ensures HasGenuine(after, id)
    {
      if HasGenuine(w.produced, id) {
        var j :| 0 <= j < |w.produced| && w.produced[j].genuine && w.produced[j].id == id;
        assert after[j] == w.produced[j];
      } else {
        assert after[|w.produced|] == p.results[|w.results|];
      }
    }
    hide HasGenuine;
    if p.wrote.None? { ConcatNothing(w.sent); }
  }

  lemma {:induction false} PollKeepsQueues(w: World, k: nat, input: Input)
    requires k < |w.remotes| && Queues(w)
    ensures Queues(PollOne(w, k, input))
  {
    hide CallsAre, RemotesAre, SentOnce, InTurn, OneAtATime, PollOne;
    PollKeepsCalls(w, k, input);
    PollKeepsSent(w, k, input);
    PollKeepsTurn(w, k, input);
    PollKeepsOneAtATime(w, k, input);
  }

  ghost predicate InsideTick(w: World) {
    Tracked(w) && Timed(w) && Recorded(w) && Settling(w) && MarksAre(w) && Owned(w) && Queues(w)
  }

  /** What holds of every state between steps. */
  ghost predicate Inv(w: World) {
    InsideTick(w) && Settled(w)
  }

  lemma {:induction false} JoinKeeps(w: World, names: Option<set<string>>, now: int)
    requires InsideTick(w)
    ensures InsideTick(Join(w, names, now))
  {
    hide Queues, NoTwice, NoLateTimeout, HasAnswer, HasDeadline;
    JoinKeepsQueues(w, names, now);
  }

  lemma {:induction false} PollAllKeeps(w: World, inputs: nat -> Input, n: nat)
    requires n <= |w.remotes| && InsideTick(w)
    ensures InsideTick(PollAll(w, inputs, n))
  {
    hide Tracked, Timed, Recorded, Settling, MarksAre, Owned, CallsAre, SentOnce, InTurn, OneAtATime, PollOne;
    if n > 0 {
      PollAllKeeps(w, inputs, n - 1);
      var before, input := PollAll(w, inputs, n - 1), inputs(n - 1);
      PollKeepsTracked(before, n - 1, input);
      PollKeepsTimed(before, n - 1, input);
      PollKeepsRecorded(before, n - 1, input);
      PollKeepsSettling(before, n - 1, input);
      PollKeepsOthers(before, n - 1, input);
      hide RemotesAre;
      PollKeepsQueues(before, n - 1, input);
    }
  }

  lemma {:induction false} SettleKeeps(w: World)
    requires InsideTick(w)
    ensures Inv(SettleStep(w))
  {
    hide Queues, NoTwice, NoLateTimeout, HasAnswer, HasDeadline, Unanswered, TimesAre, Owned, MarksAre;
    UnansweredTimes(w.deadlines, w.results, w.since);
    forall id
      ensures HasDeadline(SettleStep(w).deadlines, id) <==> HasDeadline(w.deadlines, id) && !HasAnswer(w.results, id)
    {
      UnansweredMeans(w.deadlines, w.results, id);
    }
    SettleKeepsRest(w);
  }

  lemma {:induction false} SettleKeepsRest(w: World)
    ensures Queues(w) ==> Queues(SettleStep(w))
    ensures Owned(w) && MarksAre(w) ==> Owned(SettleStep(w)) && MarksAre(SettleStep(w))
  {
    hide NoTwice, HasGenuine, Unanswered;
  }

  lemma {:induction false} SweepKeepsTracked(w: World, now: int)
    requires Tracked(w) && Timed(w) && Recorded(w)
    ensures var n := SweepStep(w, now); Tracked(n) && Timed(n) && Recorded(n)
  {
    hide HasDeadline, HasAnswer, Running, Timeouts, TimesAre, CallsLeft;
    RunningIsYoung(w.deadlines, now, w.since, "");
    forall id
      ensures HasDeadline(w.deadlines, id) <==>
                HasDeadline(Running(w.deadlines, now), id) || HasAnswer(Timeouts(w.deadlines, now), id)
      ensures HasAnswer(SweepStep(w, now).results, id) <==> HasAnswer(w.results, id) || HasAnswer(Timeouts(w.deadlines, now), id)
      ensures HasAnswer(SweepStep(w, now).produced, id) <==> HasAnswer(w.produced, id) || HasAnswer(Timeouts(w.deadlines, now), id)
    {
      RunningMeans(w.deadlines, now, id);
      AnswerMore(w.results, Timeouts(w.deadlines, now), id);
      AnswerMore(w.produced, Timeouts(w.deadlines, now), id);
    }
  }

  lemma {:induction false} SweepKeepsSettled(w: World, now: int)
    requires Settled(w) && Timed(w)
    ensures Settled(SweepStep(w, now))
  {
    hide HasAnswer, HasDeadline, Running, Timeouts, CallsLeft;
    TimeoutsAreNotGenuine(w.deadlines, now);
    var late := Timeouts(w.deadlines, now);
    var n := SweepStep(w, now);
    forall id ensures HasDeadline(n.deadlines, id) ==> HasDeadline(w.deadlines, id) {
      RunningMeans(w.deadlines, now, id);
    }
    forall id ensures HasDeadline(w.deadlines, id) ==> id in w.owner {
      if HasDeadline(w.deadlines, id) { DeadlineIsTimed(w.deadlines, w.since, id); }
    }
    assert forall k :: 0 <= k < |w.produced| ==> n.produced[k] == w.produced[k];
    assert forall k :: |w.produced| <= k < |n.produced| ==> n.produced[k] == late[k - |w.produced|];
  }

  lemma {:induction false} DeadlineIsTimed(deadlines: seq<Deadline>, since: map<Id, int>, id: Id)
    requires TimesAre(deadlines, since) && HasDeadline(deadlines, id)
    ensures id in since
  {
    if deadlines[|deadlines| - 1].id != id { DeadlineIsTimed(deadlines[..|deadlines| - 1], since, id); }
  }

  lemma {:induction false} SweepKeepsQueues(w: World, now: int)
    requires CallsAre(w) && RemotesAre(w) && SentOnce(w) && InTurn(w)
    ensures var n := SweepStep(w, now); CallsAre(n) && RemotesAre(n) && SentOnce(n) && InTurn(n)
  {
    hide Running, Timeouts, CallsLeft;
    CallsLeftAre(w.calls, w.deadlines, now);
    var left := CallsLeft(w.calls, w.deadlines, now);
    assert Rising(w.calls);
    forall k | 0 <= k < |left| ensures exists j :: 0 <= j < |w.calls| && w.calls[j] == left[k] {
      assert left[k] in w.calls;
    }
  }

  lemma {:induction false} MoreProduced(w: World, more: seq<Answer>)
    requires OneAtATime(w)
    ensures OneAtATime(w.(produced := w.produced + more))
  {
    forall id | HasGenuine(w.produced, id) ensures HasGenuine(w.produced + more, id) {
      var j :| 0 <= j < |w.produced| && w.produced[j].genuine && w.produced[j].id == id;
      assert (w.produced + more)[j] == w.produced[j];
    }
    hide HasGenuine;
  }

  lemma {:induction false} SweepKeeps(w: World, now: int)
    requires Inv(w)
    ensures Inv(SweepStep(w, now))
  {
    hide Tracked, Timed, Recorded, Settled, CallsAre, RemotesAre, SentOnce, InTurn, HasGenuine, NoTwice;
    SweepKeepsTracked(w, now);
    SweepKeepsSettled(w, now);
    SweepKeepsQueues(w, now);
    MoreProduced(w, Timeouts(w.deadlines, now));
    SettledIsSettling(SweepStep(w, now));
  }

  lemma {:induction false} SettledIsSettling(w: World)
    requires Settled(w)
    ensures Settling(w)
  {
  }

  lemma {:induction false} DropKeepsTracked(w: World)
    requires Tracked(w) && MarksAre(w) && Recorded(w)
    ensures Tracked(DropStep(w)) && MarksAre(DropStep(w)) && Recorded(DropStep(w))
  {
    hide HasDeadline, HasAnswer, DropMarked, NoTwice;
    var d := DropMarked(w.results, w.marks);
    DropMeans(w.results, w.marks, "");
    forall id
      ensures id in d.marks <==> id in w.marks && !HasAnswer(w.results, id)
      ensures id !in w.marks ==> HasAnswer(d.results, id) == HasAnswer(w.results, id)
      ensures HasAnswer(d.results, id) ==> HasAnswer(w.results, id)
    {
      DropMeans(w.results, w.marks, id);
      DroppedAreGone(w.results, w.marks, id);
    }
    assert DropStep(w).owner.Keys == w.owner.Keys;
  }

  lemma {:induction false} DroppedAreGone(results: seq<Answer>, marks: seq<Id>, id: Id)
    ensures HasAnswer(DropMarked(results, marks).results, id) ==> HasAnswer(results, id)
  {
    if results != [] {
      var init, last := results[..|results| - 1], results[|results| - 1];
      DroppedAreGone(init, marks, id);
      var before := DropMarked(init, marks);
      if last.id !in before.marks {
        AnswerMore(before.results, [last], id);
        AnswerOne(last, id);
      }
    }
  }

  lemma {:induction false} DropKeepsRest(w: World)
    requires Owned(w) && Timed(w) && Settled(w)
    ensures Owned(DropStep(w)) && Timed(DropStep(w)) && Settled(DropStep(w))
  {
    hide HasDeadline, HasAnswer, DropMarked, NoLateTimeout, TimesAre;
    assert DropStep(w).owner.Keys == w.owner.Keys;
  }

  lemma {:induction false} DropKeepsQueues(w: World)
    requires Queues(w)
    ensures Queues(DropStep(w))
  {
    hide DropMarked, HasGenuine;
    assert DropStep(w).owner.Keys == w.owner.Keys;
  }

  lemma {:induction false} DropKeeps(w: World)
    requires Inv(w)
    ensures Inv(DropStep(w))
  {
    hide Tracked, Timed, Recorded, Settled, MarksAre, Owned, Queues, DropStep;
    DropKeepsTracked(w);
    DropKeepsRest(w);
    DropKeepsQueues(w);
    SettledIsSettling(DropStep(w));
  }

  lemma {:induction false} AliveAre(remotes: seq<Remote>)
    ensures forall k :: 0 <= k < |StillAlive(remotes)| ==> StillAlive(remotes)[k] in remotes
    ensures (forall j, k :: 0 <= j < k < |remotes| ==> remotes[j].key < remotes[k].key) ==>
              forall j, k :: 0 <= j < k < |StillAlive(remotes)| ==> StillAlive(remotes)[j].key < StillAlive(remotes)[k].key
  {
    if remotes != [] {
      var init, last := remotes[..|remotes| - 1], remotes[|remotes| - 1];
      AliveAre(init);
      assert forall r :: r in init ==> r in remotes;
      if forall j, k :: 0 <= j < k < |remotes| ==> remotes[j].key < remotes[k].key {
        forall r | r in init ensures r.key < last.key {
          var j :| 0 <= j < |init| && init[j] == r;
          assert remotes[j] == r;
        }
      }
    }
  }

  lemma {:induction false} BuryKeepsQueues(w: World)
    requires Queues(w)
    ensures Queues(BuryStep(w))
  {
    hide HasGenuine, StillAlive;
    AliveAre(w.remotes);
    var alive := StillAlive(w.remotes);
    forall k | 0 <= k < |alive| ensures exists j :: 0 <= j < |w.remotes| && w.remotes[j] == alive[k] {
      assert alive[k] in w.remotes;
    }
  }

  lemma {:induction false} BuryKeeps(w: World)
    requires Inv(w)
    ensures Inv(BuryStep(w))
  {
    hide Queues, NoTwice, NoLateTimeout, HasAnswer, HasDeadline, TimesAre, StillAlive;
    BuryKeepsQueues(w);
  }

  lemma {:induction false} TickKeeps(w: World, names: Option<set<string>>, inputs: nat -> Input, now: int)
    requires Inv(w)
    ensures Inv(Tick(w, names, inputs, now))
  {
    hide InsideTick, Settled, Join, PollAll, SettleStep, SweepStep, DropStep, BuryStep;
    JoinKeeps(w, names, now);
    var joined := Join(w, names, now);
    PollAllKeeps(joined, inputs, |joined.remotes|);
    SettleKeeps(PollJoined(joined, inputs));
    SweepKeeps(SettleStep(PollJoined(joined, inputs)), now);
    DropKeeps(SweepStep(SettleStep(PollJoined(joined, inputs)), now));
    BuryKeeps(DropStep(SweepStep(SettleStep(PollJoined(joined, inputs)), now)));
  }

  // ---- All runs ----

  lemma {:induction false} OpenKeeps(w: World, instance: nat)
    requires Inv(w)
    ensures Inv(Open(w, instance))
  {
    hide NoTwice, NoLateTimeout, HasAnswer, HasDeadline, TimesAre, HasGenuine;
  }

  lemma {:induction false} PutKeeps(w: World, instance: nat, id: Id, name: string, now: int)
    requires Inv(w) && id !in w.owner && instance in w.live
    ensures Inv(Put(w, instance, id, name, now))
  {
    hide Tracked, Timed, Settled, MarksAre, Owned, CallsAre, RemotesAre, SentOnce, InTurn, OneAtATime, HasAnswer;
    PutKeepsTracked(w, instance, id, name, now);
    PutKeepsTimed(w, instance, id, name, now);
    PutKeepsSettled(w, instance, id, name, now);
    PutKeepsOwned(w, instance, id, name, now);
    PutKeepsQueues(w, instance, id, name, now);
    SettledIsSettling(Put(w, instance, id, name, now));
  }

  lemma {:induction false} AskKeeps(w: World, instance: nat, id: Id)
    requires Inv(w) && id in w.owner && w.owner[id] == Waits(instance)
    ensures Inv(Ask(w, instance, id))
  {
    hide Tracked, Timed, Recorded, Settled, MarksAre, Owned, CallsAre, RemotesAre, SentOnce, InTurn, OneAtATime, Ask;
    AskKeepsTracked(w, instance, id);
    AskKeepsRecorded(w, instance, id);
    AskKeepsOwned(w, instance, id);
    AskKeepsRest(w, instance, id);
    AskKeepsQueues(w, instance, id);
    SettledIsSettling(Ask(w, instance, id));
  }

  lemma {:induction false} LeaveAndAbandonKeep(w: World, instance: nat, id: Id)
    requires Inv(w)
    ensures Inv(Leave(w, instance))
    ensures id in w.owner && w.owner[id] == Orphaned ==> Inv(Abandon(w, id))
  {
    hide Tracked, Timed, Settled, MarksAre, Owned, CallsAre, RemotesAre, SentOnce, InTurn, OneAtATime, HasAnswer;
    LeaveKeeps(w, instance);
    LeaveKeepsQueues(w, instance);
    SettledIsSettling(Leave(w, instance));
    if id in w.owner && w.owner[id] == Orphaned {
      AbandonKeeps(w, id);
      AbandonKeepsQueues(w, id);
      SettledIsSettling(Abandon(w, id));
    }
  }

  lemma {:induction false} StepKeepsInv(w: World, s: Step)
    requires Inv(w) && Enabled(w, s)
    ensures Inv(Next(w, s))
  {
    hide Inv, Open, Put, Ask, Leave, Abandon, Tick;
    match s
    case DoOpen(instance) => OpenKeeps(w, instance);
    case DoPut(instance, id, name, now) => PutKeeps(w, instance, id, name, now);
    case DoAsk(instance, id) => AskKeeps(w, instance, id);
    case DoLeave(instance) => LeaveAndAbandonKeep(w, instance, "");
    case DoAbandon(id) => LeaveAndAbandonKeep(w, 0, id);
    case DoTick(names, inputs, now) => TickKeeps(w, names, inputs, now);
  }

  /** The steps can be taken one after the other. */
  ghost predicate CanRun(w: World, steps: seq<Step>)
    decreases |steps|
  {
    steps == [] || (Enabled(w, steps[0]) && CanRun(Next(w, steps[0]), steps[1..]))
  }

  function RunTo(w: World, steps: seq<Step>): World
    decreases |steps|
  {
    if steps == [] then w else RunTo(Next(w, steps[0]), steps[1..])
  }

  /** Some run from the start leads here. */
  ghost predicate Reaches(steps: seq<Step>, w: World) {
    CanRun(Begin(), steps) && w == RunTo(Begin(), steps)
  }

  lemma {:induction false} RunKeepsInv(w: World, steps: seq<Step>)
    requires Inv(w) && CanRun(w, steps)
    ensures Inv(RunTo(w, steps))
    decreases |steps|
  {
    hide Inv, Next, Enabled;
    if steps != [] {
      StepKeepsInv(w, steps[0]);
      RunKeepsInv(Next(w, steps[0]), steps[1..]);
    }
  }

  lemma {:induction false} BeginIsFine()
    ensures Inv(Begin())
  {
  }

  lemma {:induction false} EveryRunKeepsInv(steps: seq<Step>, w: World)
    requires Reaches(steps, w)
    ensures Inv(w)
  {
    hide Inv, CanRun, RunTo;
    BeginIsFine();
    RunKeepsInv(Begin(), steps);
  }

  /** In every run, whatever a live conversation waits for still has a deadline or a waiting result. */
  lemma {:induction false} NothingIsForgotten(steps: seq<Step>, w: World, id: Id)
    requires Reaches(steps, w) && id in w.owner && w.owner[id].Waits?
    ensures w.owner[id].instance in w.live
    ensures HasDeadline(w.deadlines, id) || HasAnswer(w.results, id)
  {
    EveryRunKeepsInv(steps, w);
  }

  /** In every run, each id is claimed at most once, only by the conversation that put it, and what it gets
      is an answer to that id. */
  lemma {:induction false} ClaimsAreOwn(steps: seq<Step>, w: World, j: nat, k: nat)
    requires Reaches(steps, w) && j < |w.claims| && k < |w.claims|
    ensures var c := w.claims[k]; c.id in w.asker && w.asker[c.id] == c.instance && c.answer.id == c.id
    ensures w.claims[j].id == w.claims[k].id ==> j == k
  {
    EveryRunKeepsInv(steps, w);
  }

  /** In every run, no timeout error follows a genuine answer to the same id. */
  lemma {:induction false} NoTimeoutAfterAnswer(steps: seq<Step>, w: World, j: nat, k: nat)
    requires Reaches(steps, w) && j < k < |w.produced| && w.produced[j].id == w.produced[k].id && w.produced[j].genuine
    ensures w.produced[k].genuine
  {
    EveryRunKeepsInv(steps, w);
  }

  /** In every run, no call is written twice, to the same or to two remotes; each remote gets its calls in
      the order they were put, and the next one only when the one before is answered. */
  lemma {:induction false} CallsAreSentOnceInOrder(steps: seq<Step>, w: World, j: nat, k: nat)
    requires Reaches(steps, w) && j < k < |w.sent|
    ensures w.sent[j].call.number != w.sent[k].call.number
    ensures w.sent[j].key == w.sent[k].key ==> w.sent[j].call.number < w.sent[k].call.number
    ensures forall i :: 0 <= i < |w.remotes| && w.remotes[i].key == w.sent[j].key ==>
              w.remotes[i].awaiting == Some(w.sent[j].call.id) || HasGenuine(w.produced, w.sent[j].call.id)
  {
    EveryRunKeepsInv(steps, w);
  }

  lemma {:induction false} SweptIsAnswered(w: World, now: int, id: Id)
    requires Inv(w) && id in w.owner && Passed(w.since[id], now, CALL_TIMEOUT_SECONDS)
    ensures var n := SweepStep(w, now);
            && !HasDeadline(n.deadlines, id) && HasAnswer(n.produced, id)
            && (n.owner[id] != Over ==> HasAnswer(n.results, id))
  {
    RunningIsYoung(w.deadlines, now, w.since, id);
    SweepKeeps(w, now);
    hide HasDeadline, HasAnswer, Passed, Running, Timeouts;
  }

  lemma {:induction false} DropSettlesMark(w: World, id: Id)
    requires Inv(w) && id in w.owner && !HasDeadline(w.deadlines, id)
    ensures var n := DropStep(w);
            id in n.owner && n.owner[id] != Marked && n.produced == w.produced && n.deadlines == w.deadlines
  {
    hide HasDeadline, HasAnswer, DropMarked, NoLateTimeout, TimesAre, Queues;
    DropMeans(w.results, w.marks, id);
  }

  lemma {:induction false} PollAllLeaves(w: World, inputs: nat -> Input, n: nat)
    requires n <= |w.remotes|
    ensures var p := PollAll(w, inputs, n); p.owner == w.owner && p.since == w.since && p.deadlines == w.deadlines
  {
    if n > 0 {
      PollAllLeaves(w, inputs, n - 1);
      hide Poll, New;
    }
  }

  /** A tick at least 300 seconds after a call was put leaves it answered: an answer was produced, it waits
      to be claimed if anyone still waits for it, and no mark for it is left behind. */
  lemma {:induction false} OldCallsAreAnswered(w: World, names: Option<set<string>>, inputs: nat -> Input, now: int,
      id: Id)
    requires Inv(w) && id in w.owner && Passed(w.since[id], now, CALL_TIMEOUT_SECONDS)
    ensures var n := Tick(w, names, inputs, now);
            && id in n.owner && HasAnswer(n.produced, id) && !HasDeadline(n.deadlines, id)
            && n.owner[id] != Marked
            && (n.owner[id] != Over ==> HasAnswer(n.results, id))
  {
    hide InsideTick, Settled, Passed, HasDeadline, HasAnswer;
    var joined := Join(w, names, now);
    JoinKeeps(w, names, now);
    PollAllKeeps(joined, inputs, |joined.remotes|);
    PollAllLeaves(joined, inputs, |joined.remotes|);
    var polled := PollJoined(joined, inputs);
    SettleKeeps(polled);
    var settled := SettleStep(polled);
    assert settled.owner == w.owner && settled.since == w.since;
    hide Join, PollJoined, SettleStep, PollAll;
    SweptIsAnswered(settled, now, id);
    SweepKeeps(settled, now);
    var swept := SweepStep(settled, now);
    hide SweepStep;
    DropSettlesMark(swept, id);
    assert swept.owner.Keys == w.owner.Keys;
    TickKeeps(w, names, inputs, now);
    if Tick(w, names, inputs, now).owner[id] != Over { TrackedAt(Tick(w, names, inputs, now), id); }
  }

  lemma {:induction false} TrackedAt(w: World, id: Id)
    requires Inv(w) && id in w.owner && w.owner[id] != Over
    ensures HasDeadline(w.deadlines, id) || HasAnswer(w.results, id)
  {
  }
}
