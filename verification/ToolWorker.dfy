/** The worker, its remote tools and the conversations in the program's own form: objects whose fields are
    updated in place, each proved to make the steps of `ToolProtocol` (source/tool_worker.cpp,
    source/remote_tools.cpp, source/ai_root.cpp). */
module ToolWorkers {
  import opened Options
  import opened Sequences
  import opened ToolQueues
  import P = ToolProtocol

  class RemoteTool {
    const key: nat
    const names: set<string>
    var alive: bool
    var awaiting: Option<Id>
    var lastSent: int
    var lastReceived: int

    function View(): Remote
      reads this
    {
      Remote(key, names, alive, awaiting, lastSent, lastReceived)
    }

    constructor (key: nat, names: set<string>, now: int)
      ensures View() == Remote(key, names, true, None, now, now)
    {
      this.key, this.names := key, names;
      alive, awaiting, lastSent, lastReceived := true, None, now, now;
    }

    method TakeArrival(results: seq<Answer>, input: Input) returns (after: seq<Answer>)
      modifies this
      ensures (View(), after) == Receive(old(View()), results, input)
    {
      after := results;
      match input.arrival
      case Nothing =>
      case Closed => alive := false;
      case Line(msg) =>
        lastReceived := input.now;
        match msg
        case Ping => if input.pongSent { lastSent := input.now; } else { alive := false; }
        case Result(id, text) =>
          if awaiting == Some(id) {
            after := after + [Answer(id, true, text)];
            awaiting := None;
          }
        case OtherMsg =>
    }

    method Beat(input: Input)
      modifies this
      ensures View() == Heartbeat(old(View()), input)
    {
      if Passed(lastSent, input.now, PING_INTERVAL_SECONDS) {
        if !input.pingSent {
          alive := false;
          return;
        }
        lastSent := input.now;
      }
      if Passed(lastReceived, input.now, DEAD_TIMEOUT_SECONDS) { alive := false; }
    }

    method SendNext(calls: seq<Call>, results: seq<Answer>, input: Input) returns (left: seq<Call>, wrote: Option<Call>)
      modifies this
      ensures Polled(View(), left, results, wrote) == SendOldest(old(View()), calls, results, input)
    {
      left, wrote := calls, None;
      if awaiting.None? {
        var k := FindOldest(calls, names);
        if k < |calls| {
          if input.callSent {
            lastSent := input.now;
            awaiting := Some(calls[k].id);
            left, wrote := Remove(calls, k), Some(calls[k]);
          } else {
            alive := false;
          }
        }
      }
    }

    method PollCommunications(calls: seq<Call>, results: seq<Answer>, input: Input)
      returns (left: seq<Call>, after: seq<Answer>, wrote: Option<Call>)
      modifies this
      ensures Polled(View(), left, after, wrote) == Poll(old(View()), calls, results, input)
    {
      hide Receive, Heartbeat, SendOldest;
      left, after, wrote := calls, results, None;
      if !alive { return; }
      after := TakeArrival(results, input);
      if !alive { return; }
      Beat(input);
      if !alive { return; }
      left, wrote := SendNext(calls, after, input);
    }
  }

  method FindOldest(calls: seq<Call>, names: set<string>) returns (k: nat)
    ensures k == OldestFor(calls, names)
  {
    k := 0;
    while k < |calls| && calls[k].name !in names
      invariant k <= |calls|
      invariant forall j :: 0 <= j < k ==> calls[j].name !in names
    {
      k := k + 1;
    }
    OldestIs(calls, names, k);
  }

  lemma {:induction false} OldestIs(calls: seq<Call>, names: set<string>, k: nat)
    requires k <= |calls| && (forall j :: 0 <= j < k ==> calls[j].name !in names)
    requires k < |calls| ==> calls[k].name in names
    ensures OldestFor(calls, names) == k
  {
    hide OldestFor;
  }

  lemma {:induction false} AnswerIs(results: seq<Answer>, id: Id, k: nat)
    requires k <= |results| && (forall j :: 0 <= j < k ==> results[j].id != id)
    requires k < |results| ==> results[k].id == id
    ensures AnswerAt(results, id) == k
  {
    hide AnswerAt;
  }

  class ToolWorker {
    var calls: seq<Call>
    var results: seq<Answer>
    var deadlines: seq<Deadline>
    var marks: seq<Id>
    var tools: seq<RemoteTool>

    ghost predicate Distinct()
      reads this
    {
      forall j, k :: 0 <= j < k < |tools| ==> tools[j] != tools[k]
    }

    ghost predicate ToolsAre(remotes: seq<Remote>)
      reads this, tools
    {
      |tools| == |remotes| && forall k :: 0 <= k < |tools| ==> tools[k].View() == remotes[k]
    }

    /** The worker's variables are those of the world. */
    ghost predicate Matches(w: P.World)
      reads this, tools
    {
      && calls == w.calls && results == w.results && deadlines == w.deadlines && marks == w.marks
      && ToolsAre(w.remotes) && Distinct()
    }

    constructor ()
      ensures Matches(P.Begin())
    {
      calls, results, deadlines, marks, tools := [], [], [], [], [];
    }

    method PutPendingCall(ghost w: P.World, ghost instance: nat, call: Call, now: int)
      requires Matches(w) && call.number == w.puts
      modifies this`calls, this`deadlines
      ensures Matches(P.Put(w, instance, call.id, call.name, now))
    {
      calls := calls + [call];
      deadlines := deadlines + [Deadline(call.id, now)];
    }

    /** Takes the oldest answer to this id out of the queue. */
    method GetPendingResult(ghost w: P.World, ghost instance: nat, id: Id) returns (out: Option<Answer>)
      requires Matches(w)
      modifies this`results
      ensures Matches(P.Ask(w, instance, id))
      ensures out.Some? <==> HasAnswer(w.results, id)
      ensures out.Some? ==> AnswerAt(w.results, id) < |w.results| && out.value == w.results[AnswerAt(w.results, id)]
    {
      out := None;
      AnswerAtMeans(results, id);
      for k := 0 to |results|
        invariant forall j :: 0 <= j < k ==> results[j].id != id
        invariant Matches(w) && results == old(results) && out == None
      {
        if results[k].id == id {
          AnswerIs(results, id, k);
          out := Some(results[k]);
          results := Remove(results, k);
          return;
        }
      }
      AnswerIs(results, id, |results|);
    }

    method AbandonCall(ghost w: P.World, id: Id)
      requires Matches(w)
      modifies this`marks
      ensures Matches(P.Abandon(w, id))
    {
      marks := marks + [id];
    }

    // ---- One turn of the thread ----

    method Register(ghost w: P.World, names: Option<set<string>>, key: nat, now: int)
      requires Matches(w) && key == w.joins
      modifies this`tools
      ensures Matches(P.Join(w, names, now))
      ensures forall t :: t in tools ==> t in old(tools) || fresh(t)
    {
      if names.Some? {
        var remote := new RemoteTool(key, names.value, now);
        tools := tools + [remote];
      }
    }

    method PollTool(ghost w: P.World, k: nat, input: Input)
      requires Matches(w) && k < |tools|
      modifies this`calls, this`results, tools
      ensures |w.remotes| == |tools| && Matches(P.PollOne(w, k, input))
    {
      hide Poll, P.New;
      var left, after, wrote := tools[k].PollCommunications(calls, results, input);
      calls, results := left, after;
    }

    method PollTools(ghost w: P.World, inputs: nat -> Input)
      requires Matches(w)
      modifies this`calls, this`results, tools
      ensures Matches(P.PollJoined(w, inputs))
    {
      hide P.PollOne;
      for k := 0 to |tools|
        invariant tools == old(tools) && |tools| == |w.remotes|
        invariant Matches(P.PollAll(w, inputs, k))
      {
        PollTool(P.PollAll(w, inputs, k), k, inputs(k));
      }
    }

    method EraseAnswered(ghost w: P.World)
      requires Matches(w)
      modifies this`deadlines
      ensures Matches(P.SettleStep(w))
    {
      var kept := [];
      for k := 0 to |deadlines|
        invariant deadlines == old(deadlines) && results == w.results
        invariant kept == Unanswered(deadlines[..k], results)
      {
        assert deadlines[..k + 1][..k] == deadlines[..k];
        var answered := AnyAnswer(results, deadlines[k].id);
        if !answered { kept := kept + [deadlines[k]]; }
      }
      assert deadlines[..|deadlines|] == deadlines;
      deadlines := kept;
    }

    method SweepTimeouts(ghost w: P.World, now: int)
      requires Matches(w)
      modifies this`deadlines, this`calls, this`results
      ensures Matches(P.SweepStep(w, now))
    {
      var kept := [];
      ConcatNothing(results);
      for k := 0 to |deadlines|
        invariant deadlines == old(deadlines)
        invariant kept == Running(deadlines[..k], now)
        invariant calls == CallsLeft(w.calls, deadlines[..k], now)
        invariant results == w.results + Timeouts(deadlines[..k], now)
      {
        hide Passed;
        var d := deadlines[k];
        assert deadlines[..k + 1][..k] == deadlines[..k];
        if Passed(d.since, now, CALL_TIMEOUT_SECONDS) {
          calls := EraseCall(calls, d.id);
          ConcatAssociates(w.results, Timeouts(deadlines[..k], now), [Answer(d.id, false, TIMED_OUT)]);
          results := results + [Answer(d.id, false, TIMED_OUT)];
        } else {
          ConcatNothing(Timeouts(deadlines[..k], now));
          kept := kept + [d];
        }
      }
      assert deadlines[..|deadlines|] == deadlines;
      deadlines := kept;
    }

    method DropAbandoned(ghost w: P.World)
      requires Matches(w)
      modifies this`results, this`marks
      ensures Matches(P.DropStep(w))
    {
      var kept := [];
      for k := 0 to |results|
        invariant results == old(results)
        invariant DropMarked(results[..k], w.marks) == Drop(kept, marks)
      {
        assert results[..k + 1][..k] == results[..k];
        if results[k].id in marks {
          marks := EraseFirst(marks, results[k].id);
        } else {
          kept := kept + [results[k]];
        }
      }
      assert results[..|results|] == results;
      results := kept;
    }

    method EraseDead(ghost w: P.World)
      requires Matches(w)
      modifies this`tools
      ensures Matches(P.BuryStep(w))
    {
      hide P.StillAlive;
      var kept: seq<RemoteTool> := [];
      ghost var places: seq<int> := [];
      NoneAlive(w.remotes);
      for k := 0 to |tools|
        invariant tools == old(tools) && Matches(w)
        invariant |kept| == |places| == |P.StillAlive(w.remotes[..k])|
        invariant forall j :: 0 <= j < |kept| ==> 0 <= places[j] < k && kept[j] == tools[places[j]]
        invariant forall i, j :: 0 <= i < j < |places| ==> places[i] < places[j]
        invariant forall j :: 0 <= j < |kept| ==> kept[j].View() == P.StillAlive(w.remotes[..k])[j]
      {
        AliveNext(w.remotes, k);
        if tools[k].alive {
          kept := kept + [tools[k]];
          places := places + [k];
        }
      }
      assert w.remotes[..|w.remotes|] == w.remotes;
      tools := kept;
    }

    method Tick(ghost w: P.World, names: Option<set<string>>, key: nat, inputs: nat -> Input, now: int)
      requires Matches(w) && key == w.joins
      modifies this, tools
      ensures Matches(P.Tick(w, names, inputs, now))
    {
      hide P.Join, P.PollJoined, P.SettleStep, P.SweepStep, P.DropStep, P.BuryStep, Matches;
      ghost var joined := P.Join(w, names, now);
      Register(w, names, key, now);
      assert forall k :: 0 <= k < |tools| ==> tools[k] in tools;
      PollTools(joined, inputs);
      ghost var polled := P.PollJoined(joined, inputs);
      EraseAnswered(polled);
      SweepTimeouts(P.SettleStep(polled), now);
      ghost var swept := P.SweepStep(P.SettleStep(polled), now);
      if marks != [] {
        DropAbandoned(swept);
      } else {
        NothingToDrop(swept);
      }
      EraseDead(P.DropStep(swept));
    }

    /** Without marks the worker skips the search; there would be nothing to drop. */
    lemma {:induction false} NothingToDrop(w: P.World)
      requires Matches(w) && marks == []
      ensures Matches(P.DropStep(w))
    {
      NoMarks(w.results);
    }
  }

  lemma {:induction false} NoneAlive(remotes: seq<Remote>)
    ensures P.StillAlive(remotes[..0]) == []
  {
  }

  lemma {:induction false} AliveNext(remotes: seq<Remote>, k: nat)
    requires k < |remotes|
    ensures P.StillAlive(remotes[..k + 1]) == P.StillAlive(remotes[..k]) + if remotes[k].alive then [remotes[k]] else []
  {
    assert remotes[..k + 1][..k] == remotes[..k];
  }

  lemma {:induction false} NoMarks(results: seq<Answer>)
    ensures DropMarked(results, []) == Drop(results, [])
  {
    if results != [] {
      NoMarks(results[..|results| - 1]);
      SnocSplit(results);
    }
  }

  method AnyAnswer(results: seq<Answer>, id: Id) returns (found: bool)
    ensures found == HasAnswer(results, id)
  {
    for k := 0 to |results|
      invariant !HasAnswer(results[..k], id)
    {
      assert results[..k + 1][..k] == results[..k];
      if results[k].id == id {
        AnswerIn(results, k);
        return true;
      }
    }
    assert results[..|results|] == results;
    return false;
  }

  method EraseCall(calls: seq<Call>, id: Id) returns (left: seq<Call>)
    ensures left == WithoutCall(calls, id)
  {
    left := [];
    for k := 0 to |calls|
      invariant left == WithoutCall(calls[..k], id)
    {
      assert calls[..k + 1][..k] == calls[..k];
      if calls[k].id != id { left := left + [calls[k]]; }
    }
    assert calls[..|calls|] == calls;
  }

  method EraseFirst(ids: seq<Id>, id: Id) returns (left: seq<Id>)
    ensures left == WithoutFirst(ids, id)
  {
    for k := 0 to |ids|
      invariant ids[..k] + WithoutFirst(ids[k..], id) == WithoutFirst(ids, id)
    {
      if ids[k] == id { return ids[..k] + ids[k + 1..]; }
      assert ids[..k] + [ids[k]] == ids[..k + 1] && ids[k..][1..] == ids[k + 1..];
      ConcatAssociates(ids[..k], [ids[k]], WithoutFirst(ids[k + 1..], id));
    }
    assert ids[..|ids|] == ids;
    return ids;
  }

  // ---- A conversation ----

  /** Asking for each of the first n ids in turn. */
  ghost function AskAll(w: P.World, instance: nat, ids: seq<Id>, n: nat): P.World
    requires n <= |ids|
  {
    if n == 0 then w else P.Ask(AskAll(w, instance, ids, n - 1), instance, ids[n - 1])
  }

  ghost function AbandonAll(w: P.World, ids: seq<Id>, n: nat): P.World
    requires n <= |ids|
  {
    if n == 0 then w else P.Abandon(AbandonAll(w, ids, n - 1), ids[n - 1])
  }

  /** The ids among these that are still waited for. */
  ghost function StillOpen(w: P.World, ids: seq<Id>, instance: nat): seq<Id> {
    if ids == [] then []
    else
      var last := ids[|ids| - 1];
      StillOpen(w, ids[..|ids| - 1], instance) + if last in w.owner && w.owner[last] == P.Waits(instance) then [last] else []
  }

  lemma {:induction false} OthersStayOpen(w: P.World, ids: seq<Id>, instance: nat, id: Id)
    requires id !in ids
    ensures StillOpen(P.Ask(w, instance, id), ids, instance) == StillOpen(w, ids, instance)
  {
    if ids != [] {
      OthersStayOpen(w, ids[..|ids| - 1], instance, id);
    }
  }

  /** Asking closes the wait for an id exactly if there is an answer to it, and touches no other. */
  lemma {:induction false} AskClosesOne(w: P.World, instance: nat, id: Id)
    requires id in w.owner && w.owner[id] == P.Waits(instance)
    ensures var after := P.Ask(w, instance, id);
            && (id in after.owner && after.owner[id] == P.Waits(instance) <==> !HasAnswer(w.results, id))
            && forall other :: other in w.owner && other != id ==> other in after.owner && after.owner[other] == w.owner[other]
  {
    AnswerAtMeans(w.results, id);
    hide AnswerAt, Remove, HasAnswer;
  }

  class Conversation {
    const instance: nat
    var outstanding: seq<Id>

    constructor (instance: nat)
      ensures this.instance == instance && outstanding == []
    {
      this.instance := instance;
      outstanding := [];
    }

    /** What the conversation waits for is what the world says it waits for, each id once. */
    ghost predicate Waiting(w: P.World)
      reads this
    {
      && NoTwice(outstanding)
      && forall id :: id in outstanding <==> id in w.owner && w.owner[id] == P.Waits(instance)
    }

    /** A call that no built-in tool takes goes to the worker. */
    method Dispatch(worker: ToolWorker, ghost w: P.World, id: Id, name: string, number: nat, now: int)
      requires worker.Matches(w) && Waiting(w) && id !in w.owner && number == w.puts
      modifies this`outstanding, worker`calls, worker`deadlines
      ensures worker.Matches(P.Put(w, instance, id, name, now)) && Waiting(P.Put(w, instance, id, name, now))
      ensures outstanding == old(outstanding) + [id]
    {
      outstanding := outstanding + [id];
      worker.PutPendingCall(w, instance, Call(id, name, number), now);
    }

    /** Claims whatever has been answered, and keeps waiting for the rest in the same order. */
    method ClaimResults(worker: ToolWorker, ghost w: P.World) returns (got: seq<Answer>)
      requires worker.Matches(w) && Waiting(w)
      modifies this`outstanding, worker`results
      ensures var after := AskAll(w, instance, old(outstanding), |old(outstanding)|);
              && worker.Matches(after)
              && outstanding == StillOpen(after, old(outstanding), instance)
              && |after.claims| == |w.claims| + |got|
              && forall k :: 0 <= k < |got| ==>
                   after.claims[|w.claims| + k] == P.Claim(instance, got[k].id, got[k])
    {
      ghost var ids := outstanding;
      var kept := [];
      got := [];
      for k := 0 to |outstanding|
        invariant outstanding == ids && worker.tools == old(worker.tools)
        invariant worker.Matches(AskAll(w, instance, ids, k))
        invariant forall j :: k <= j < |ids| ==>
                    ids[j] in AskAll(w, instance, ids, k).owner && AskAll(w, instance, ids, k).owner[ids[j]] == P.Waits(instance)
        invariant kept == StillOpen(AskAll(w, instance, ids, k), ids[..k], instance)
        invariant Claimed(w, AskAll(w, instance, ids, k), instance, got)
      {
        hide StillOpen, HasAnswer, AnswerAt, Remove, Claimed, P.Ask;
        ghost var before := AskAll(w, instance, ids, k);
        var id := outstanding[k];
        AnswerAtMeans(before.results, id);
        var out := worker.GetPendingResult(before, instance, id);
        AskClosesOne(before, instance, id);
        assert id !in ids[..k];
        OthersStayOpen(before, ids[..k], instance, id);
        OneMoreOpen(P.Ask(before, instance, id), ids, k, instance);
        if out.Some? {
          ClaimedOne(w, before, instance, got, id);
          got := got + [out.value];
        } else {
          kept := kept + [id];
        }
      }
      assert ids[..|ids|] == ids;
      outstanding := kept;
    }

    /** The conversation is over: each id it still waits for is given up, one by one. */
    method End(worker: ToolWorker, ghost w: P.World)
      requires worker.Matches(w) && Waiting(w)
      modifies worker`marks
      ensures worker.Matches(AbandonAll(P.Leave(w, instance), outstanding, |outstanding|))
    {
      for k := 0 to |outstanding|
        invariant worker.tools == old(worker.tools)
        invariant worker.Matches(AbandonAll(P.Leave(w, instance), outstanding, k))
      {
        worker.AbandonCall(AbandonAll(P.Leave(w, instance), outstanding, k), outstanding[k]);
      }
    }
  }

  /** The claims since `w` are these answers, in order. */
  ghost predicate Claimed(w: P.World, after: P.World, instance: nat, got: seq<Answer>) {
    && |after.claims| == |w.claims| + |got|
    && forall k :: 0 <= k < |got| ==> after.claims[|w.claims| + k] == P.Claim(instance, got[k].id, got[k])
  }

  lemma {:induction false} ClaimedOne(w: P.World, before: P.World, instance: nat, got: seq<Answer>, id: Id)
    requires Claimed(w, before, instance, got) && AnswerAt(before.results, id) < |before.results|
    ensures Claimed(w, P.Ask(before, instance, id), instance, got + [before.results[AnswerAt(before.results, id)]])
  {
    hide Remove;
  }

  lemma {:induction false} OneMoreOpen(w: P.World, ids: seq<Id>, k: nat, instance: nat)
    requires k < |ids|
    ensures StillOpen(w, ids[..k + 1], instance)
            == StillOpen(w, ids[..k], instance) + if ids[k] in w.owner && w.owner[ids[k]] == P.Waits(instance) then [ids[k]] else []
  {
    assert ids[..k + 1][..k] == ids[..k];
  }
}
