/** The queues the tool worker keeps, and what one turn of its thread does to them
    (source/tool_worker.cpp, source/remote_tools.cpp). */
module ToolQueues {
  import opened Options
  import opened Sequences

  type Id = string

  /** `number` counts the calls put before this one. */
  datatype Call = Call(id: Id, name: string, number: nat)

  /** `genuine` when a remote answered, not when the wait was given up. */
  datatype Answer = Answer(id: Id, genuine: bool, text: string)

  datatype Deadline = Deadline(id: Id, since: int)

  /** Times are in nanoseconds. */
  const SECOND: int := 1_000_000_000
  const CALL_TIMEOUT_SECONDS: int := 300
  const PING_INTERVAL_SECONDS: int := 5
  const DEAD_TIMEOUT_SECONDS: int := 15

  /** Whether at least so many whole seconds have passed. */
  predicate Passed(since: int, now: int, seconds: int) {
    (now - since) / SECOND >= seconds
  }

  predicate HasAnswer(results: seq<Answer>, id: Id) {
    results != [] && (results[|results| - 1].id == id || HasAnswer(results[..|results| - 1], id))
  }

  predicate HasDeadline(deadlines: seq<Deadline>, id: Id) {
    deadlines != [] && (deadlines[|deadlines| - 1].id == id || HasDeadline(deadlines[..|deadlines| - 1], id))
  }

  // ---- One remote tool, polled once ----

  datatype Msg = Ping | Result(id: Id, text: string) | OtherMsg

  datatype Arrival = Nothing | Closed | Line(msg: Msg)

  /** What a poll meets: what arrives, the clock, and whether each write goes through. */
  datatype Input = Input(arrival: Arrival, now: int, pongSent: bool, pingSent: bool, callSent: bool)

  datatype Remote = Remote(key: nat, names: set<string>, alive: bool, awaiting: Option<Id>, lastSent: int, lastReceived: int)

  /** What a poll leaves: the remote, both queues, and the call it wrote, if any. */
  datatype Polled = Polled(remote: Remote, calls: seq<Call>, results: seq<Answer>, wrote: Option<Call>)

  function Dead(r: Remote): Remote { r.(alive := false) }

  function Receive(r: Remote, results: seq<Answer>, input: Input): (Remote, seq<Answer>) {
    match input.arrival
    case Nothing => (r, results)
    case Closed => (Dead(r), results)
    case Line(msg) =>
      var heard := r.(lastReceived := input.now);
      match msg
      case Ping => (if input.pongSent then heard.(lastSent := input.now) else Dead(heard), results)
      case Result(id, text) =>
        if heard.awaiting == Some(id) then (heard.(awaiting := None), results + [Answer(id, true, text)]) else (heard, results)
      case OtherMsg => (heard, results)
  }

  function Heartbeat(r: Remote, input: Input): Remote {
    var pinged := if !Passed(r.lastSent, input.now, PING_INTERVAL_SECONDS) then r
                  else if input.pingSent then r.(lastSent := input.now)
                  else Dead(r);
    if pinged.alive && Passed(pinged.lastReceived, input.now, DEAD_TIMEOUT_SECONDS) then Dead(pinged) else pinged
  }

  /** The first call for one of these names. */
  function OldestFor(calls: seq<Call>, names: set<string>): (k: nat)
    ensures k <= |calls|
    ensures k < |calls| ==> calls[k].name in names
    ensures forall j :: 0 <= j < k ==> calls[j].name !in names
  {
    if calls == [] then 0
    else
      var k := OldestFor(calls[..|calls| - 1], names);
      if k < |calls| - 1 then k else if calls[|calls| - 1].name in names then k else |calls|
  }

  function Remove<T>(s: seq<T>, k: nat): seq<T>
    requires k < |s|
  {
    s[..k] + s[k + 1..]
  }

  function SendOldest(r: Remote, calls: seq<Call>, results: seq<Answer>, input: Input): Polled {
    var k := OldestFor(calls, r.names);
    if r.awaiting.Some? || k == |calls| then Polled(r, calls, results, None)
    else if input.callSent then
      Polled(r.(lastSent := input.now, awaiting := Some(calls[k].id)), Remove(calls, k), results, Some(calls[k]))
    else Polled(Dead(r), calls, results, None)
  }

  function Poll(r: Remote, calls: seq<Call>, results: seq<Answer>, input: Input): Polled {
    if !r.alive then Polled(r, calls, results, None)
    else
      var (heard, answered) := Receive(r, results, input);
      if !heard.alive then Polled(heard, calls, answered, None)
      else
        var beating := Heartbeat(heard, input);
        if !beating.alive then Polled(beating, calls, answered, None)
        else SendOldest(beating, calls, answered, input)
  }

  // ---- The timeout sweep ----

  function Unanswered(deadlines: seq<Deadline>, results: seq<Answer>): seq<Deadline> {
    if deadlines == [] then []
    else
      var last := deadlines[|deadlines| - 1];
      Unanswered(deadlines[..|deadlines| - 1], results) + if HasAnswer(results, last.id) then [] else [last]
  }

  function Running(deadlines: seq<Deadline>, now: int): seq<Deadline> {
    if deadlines == [] then []
    else
      var last := deadlines[|deadlines| - 1];
      Running(deadlines[..|deadlines| - 1], now) + if Passed(last.since, now, CALL_TIMEOUT_SECONDS) then [] else [last]
  }

  function WithoutCall(calls: seq<Call>, id: Id): seq<Call> {
    if calls == [] then []
    else WithoutCall(calls[..|calls| - 1], id) + if calls[|calls| - 1].id == id then [] else [calls[|calls| - 1]]
  }

  /** The calls left when those whose wait is over are taken back. */
  function CallsLeft(calls: seq<Call>, deadlines: seq<Deadline>, now: int): seq<Call> {
    if deadlines == [] then calls
    else
      var before := CallsLeft(calls, deadlines[..|deadlines| - 1], now);
      var last := deadlines[|deadlines| - 1];
      if Passed(last.since, now, CALL_TIMEOUT_SECONDS) then WithoutCall(before, last.id) else before
  }

  const TIMED_OUT := "Error: no response within 300 seconds."

  function Timeouts(deadlines: seq<Deadline>, now: int): seq<Answer> {
    if deadlines == [] then []
    else
      var last := deadlines[|deadlines| - 1];
      Timeouts(deadlines[..|deadlines| - 1], now)
      + if Passed(last.since, now, CALL_TIMEOUT_SECONDS) then [Answer(last.id, false, TIMED_OUT)] else []
  }

  // ---- Answers nobody is left to claim ----

  function WithoutFirst(ids: seq<Id>, id: Id): seq<Id> {
    if ids == [] then [] else if ids[0] == id then ids[1..] else [ids[0]] + WithoutFirst(ids[1..], id)
  }

  /** What is left of the results and of the marks when marked results are dropped, one mark each. */
  datatype Drop = Drop(results: seq<Answer>, marks: seq<Id>)

  function DropMarked(results: seq<Answer>, marks: seq<Id>): Drop {
    if results == [] then Drop([], marks)
    else
      var last, before := results[|results| - 1], DropMarked(results[..|results| - 1], marks);
      if last.id in before.marks then before.(marks := WithoutFirst(before.marks, last.id))
      else before.(results := before.results + [last])
  }

  // ---- Claiming ----

  function AnswerAt(results: seq<Answer>, id: Id): (k: nat)
    ensures k <= |results| && (k < |results| ==> results[k].id == id)
    ensures forall j :: 0 <= j < k ==> results[j].id != id
  {
    if results == [] then 0
    else
      var k := AnswerAt(results[..|results| - 1], id);
      if k < |results| - 1 then k else if results[|results| - 1].id == id then k else |results|
  }

  // ---- Facts ----

  lemma {:induction false} AnswerMore(results: seq<Answer>, more: seq<Answer>, id: Id)
    ensures HasAnswer(results + more, id) == (HasAnswer(results, id) || HasAnswer(more, id))
  {
    if more == [] {
      ConcatNothing(results);
    } else {
      SnocOfConcat(results, more);
      AnswerMore(results, more[..|more| - 1], id);
    }
  }

  lemma {:induction false} AnswerOne(a: Answer, id: Id)
    ensures HasAnswer([a], id) == (a.id == id)
  {
    assert [a][..0] == [];
  }

  lemma {:induction false} AnswerIn(results: seq<Answer>, k: nat)
    requires k < |results|
    ensures HasAnswer(results, results[k].id)
  {
    if k < |results| - 1 { AnswerIn(results[..|results| - 1], k); }
  }

  lemma {:induction false} AnswerFound(results: seq<Answer>, id: Id) returns (k: nat)
    requires HasAnswer(results, id)
    ensures k < |results| && results[k].id == id
  {
    if results[|results| - 1].id == id { k := |results| - 1; } else { k := AnswerFound(results[..|results| - 1], id); }
  }

  lemma {:induction false} DeadlineMore(deadlines: seq<Deadline>, d: Deadline, id: Id)
    ensures HasDeadline(deadlines + [d], id) == (HasDeadline(deadlines, id) || d.id == id)
  {
    InitOfSnoc(deadlines, d);
  }

  /** Waits are over for exactly the ids that have an answer. */
  lemma {:induction false} UnansweredMeans(deadlines: seq<Deadline>, results: seq<Answer>, id: Id)
    ensures HasDeadline(Unanswered(deadlines, results), id) <==> HasDeadline(deadlines, id) && !HasAnswer(results, id)
  {
    hide HasAnswer;
    if deadlines != [] {
      var init, last := deadlines[..|deadlines| - 1], deadlines[|deadlines| - 1];
      UnansweredMeans(init, results, id);
      if HasAnswer(results, last.id) {
        ConcatNothing(Unanswered(init, results));
      } else {
        DeadlineMore(Unanswered(init, results), last, id);
      }
    }
  }

  lemma {:induction false} RunningMeans(deadlines: seq<Deadline>, now: int, id: Id)
    ensures HasDeadline(deadlines, id) <==> HasDeadline(Running(deadlines, now), id) || HasAnswer(Timeouts(deadlines, now), id)
  {
    hide Passed;
    if deadlines != [] {
      var init, last := deadlines[..|deadlines| - 1], deadlines[|deadlines| - 1];
      RunningMeans(init, now, id);
      if Passed(last.since, now, CALL_TIMEOUT_SECONDS) {
        ConcatNothing(Running(init, now));
        AnswerMore(Timeouts(init, now), [Answer(last.id, false, TIMED_OUT)], id);
        AnswerOne(Answer(last.id, false, TIMED_OUT), id);
      } else {
        ConcatNothing(Timeouts(init, now));
        DeadlineMore(Running(init, now), last, id);
      }
    }
  }

  /** Only ids whose time is over are given up, and none of those keeps a deadline. */
  ghost predicate TimesAre(deadlines: seq<Deadline>, since: map<Id, int>) {
    forall k :: 0 <= k < |deadlines| ==> deadlines[k].id in since && since[deadlines[k].id] == deadlines[k].since
  }

  lemma {:induction false} RunningIsYoung(deadlines: seq<Deadline>, now: int, since: map<Id, int>, id: Id)
    requires TimesAre(deadlines, since)
    ensures TimesAre(Running(deadlines, now), since)
    ensures HasDeadline(Running(deadlines, now), id) ==> id in since && !Passed(since[id], now, CALL_TIMEOUT_SECONDS)
  {
    hide Passed;
    if deadlines != [] {
      var init, last := deadlines[..|deadlines| - 1], deadlines[|deadlines| - 1];
      RunningIsYoung(init, now, since, id);
      assert last.id in since && since[last.id] == last.since;
      if Passed(last.since, now, CALL_TIMEOUT_SECONDS) {
        ConcatNothing(Running(init, now));
      } else {
        DeadlineMore(Running(init, now), last, id);
      }
    }
  }

  lemma {:induction false} UnansweredTimes(deadlines: seq<Deadline>, results: seq<Answer>, since: map<Id, int>)
    requires TimesAre(deadlines, since)
    ensures TimesAre(Unanswered(deadlines, results), since)
  {
    hide HasAnswer;
    if deadlines != [] { UnansweredTimes(deadlines[..|deadlines| - 1], results, since); }
  }

  lemma {:induction false} TimeoutsAreNotGenuine(deadlines: seq<Deadline>, now: int)
    ensures forall k :: 0 <= k < |Timeouts(deadlines, now)| ==>
              !Timeouts(deadlines, now)[k].genuine && HasDeadline(deadlines, Timeouts(deadlines, now)[k].id)
  {
    hide Passed;
    if deadlines != [] {
      TimeoutsAreNotGenuine(deadlines[..|deadlines| - 1], now);
    }
  }

  // -- marks

  ghost predicate NoTwice(ids: seq<Id>) {
    forall j, k :: 0 <= j < k < |ids| ==> ids[j] != ids[k]
  }

  lemma {:induction false} WithoutFirstMeans(ids: seq<Id>, id: Id, other: Id)
    requires NoTwice(ids)
    ensures NoTwice(WithoutFirst(ids, id))
    ensures other in WithoutFirst(ids, id) <==> other in ids && other != id
  {
    if ids != [] {
      assert forall x :: x in ids <==> x == ids[0] || x in ids[1..];
      WithoutFirstMeans(ids[1..], id, other);
      WithoutFirstMeans(ids[1..], id, ids[0]);
    }
  }

  /** A mark goes with the first answer to its id; an id without a mark keeps its answers. */
  lemma {:induction false} DropMeans(results: seq<Answer>, marks: seq<Id>, id: Id)
    requires NoTwice(marks)
    ensures var d := DropMarked(results, marks);
            && NoTwice(d.marks)
            && (id in d.marks <==> id in marks && !HasAnswer(results, id))
            && (id !in marks ==> HasAnswer(d.results, id) == HasAnswer(results, id))
  {
    if results != [] {
      var init, last := results[..|results| - 1], results[|results| - 1];
      DropMeans(init, marks, id);
      var before := DropMarked(init, marks);
      if last.id in before.marks {
        DropMeans(init, marks, last.id);
        WithoutFirstMeans(before.marks, last.id, id);
      } else {
        AnswerMore(before.results, [last], id);
        AnswerOne(last, id);
      }
    }
  }

  lemma {:induction false} RemovedAnswer(results: seq<Answer>, k: nat, id: Id)
    requires k < |results| && results[k].id != id
    ensures HasAnswer(Remove(results, k), id) == HasAnswer(results, id)
  {
    AnswerMore(results[..k], results[k + 1..], id);
    AnswerMore(results[..k], results[k..], id);
    SplitAt(results, k);
    AnswerMore([results[k]], results[k + 1..], id);
    AnswerOne(results[k], id);
    assert [results[k]] + results[k + 1..] == results[k..];
  }

  lemma {:induction false} AnswerAtMeans(results: seq<Answer>, id: Id)
    ensures AnswerAt(results, id) < |results| <==> HasAnswer(results, id)
  {
    if HasAnswer(results, id) { var k := AnswerFound(results, id); }
    if AnswerAt(results, id) < |results| { AnswerIn(results, AnswerAt(results, id)); }
  }

  // -- polls

  lemma {:induction false} ReceiveMeans(r: Remote, results: seq<Answer>, input: Input)
    ensures var (heard, after) := Receive(r, results, input);
            && heard.key == r.key && heard.names == r.names
            && if after == results then heard.awaiting == r.awaiting || heard.awaiting.None?
               else heard.awaiting.None? && r.awaiting.Some? && |after| == |results| + 1
                    && after == results + [after[|results|]] && after[|results|].id == r.awaiting.value && after[|results|].genuine
    ensures var (heard, after) := Receive(r, results, input);
            after == results ==> heard.awaiting == r.awaiting
  {
  }

  /** What one poll can do: pass on the answer the remote was asked for, and then, if the remote is free,
      hand it the oldest call for it. */
  lemma {:induction false} PollMeans(r: Remote, calls: seq<Call>, results: seq<Answer>, input: Input)
    ensures var p := Poll(r, calls, results, input);
            && p.remote.key == r.key && p.remote.names == r.names
            && (p.results == results
                || (r.awaiting.Some? && |p.results| == |results| + 1 && p.results == results + [p.results[|results|]]
                    && p.results[|results|].id == r.awaiting.value && p.results[|results|].genuine))
            && (p.wrote.None? ==>
                  p.calls == calls && p.remote.awaiting == (if p.results == results then r.awaiting else None))
            && (p.wrote.Some? ==>
                  var k := OldestFor(calls, r.names);
                  && k < |calls| && p.wrote.value == calls[k] && p.calls == Remove(calls, k)
                  && p.remote.awaiting == Some(calls[k].id)
                  && (r.awaiting.None? || p.results != results))
  {
    hide Receive, Heartbeat, OldestFor, Remove;
    ReceiveMeans(r, results, input);
    var (heard, answered) := Receive(r, results, input);
    HeartbeatMeans(heard, input);
  }

  lemma {:induction false} HeartbeatMeans(r: Remote, input: Input)
    ensures var b := Heartbeat(r, input); b.key == r.key && b.names == r.names && b.awaiting == r.awaiting
  {
    hide Passed;
  }

  /** A remote that is alive after a poll was heard from in the last 15 seconds and spoken to in the last 5. */
  lemma {:induction false} AliveIsHeardFrom(r: Remote, calls: seq<Call>, results: seq<Answer>, input: Input)
    requires r.alive && Poll(r, calls, results, input).remote.alive
    ensures var after := Poll(r, calls, results, input).remote;
            !Passed(after.lastReceived, input.now, DEAD_TIMEOUT_SECONDS) && !Passed(after.lastSent, input.now, PING_INTERVAL_SECONDS)
  {
    hide Receive, OldestFor, Remove;
    var (heard, answered) := Receive(r, results, input);
    assert !Passed(input.now, input.now, PING_INTERVAL_SECONDS);
  }

  lemma {:induction false} CallsLeftAre(calls: seq<Call>, deadlines: seq<Deadline>, now: int)
    ensures forall k :: 0 <= k < |CallsLeft(calls, deadlines, now)| ==> CallsLeft(calls, deadlines, now)[k] in calls
    ensures Rising(calls) ==> Rising(CallsLeft(calls, deadlines, now))
  {
    hide Passed, Rising;
    if deadlines != [] {
      var init := deadlines[..|deadlines| - 1];
      CallsLeftAre(calls, init, now);
      WithoutCallIs(CallsLeft(calls, init, now), deadlines[|deadlines| - 1].id);
    }
  }

  ghost predicate Rising(calls: seq<Call>) {
    forall j, k :: 0 <= j < k < |calls| ==> calls[j].number < calls[k].number
  }

  lemma {:induction false} WithoutCallIs(calls: seq<Call>, id: Id)
    ensures forall k :: 0 <= k < |WithoutCall(calls, id)| ==> WithoutCall(calls, id)[k] in calls
    ensures Rising(calls) ==> Rising(WithoutCall(calls, id))
  {
    if calls != [] {
      var init, last := calls[..|calls| - 1], calls[|calls| - 1];
      WithoutCallIs(init, id);
      assert forall c :: c in init ==> c in calls;
      if Rising(calls) {
        forall c | c in init ensures c.number < last.number {
          var j :| 0 <= j < |init| && init[j] == c;
          assert calls[j] == c;
        }
      }
    }
  }

  lemma {:induction false} RemoveIs<T>(s: seq<T>, k: nat)
    requires k < |s|
    ensures |Remove(s, k)| == |s| - 1
    ensures forall j :: 0 <= j < |s| - 1 ==> Remove(s, k)[j] == s[if j < k then j else j + 1]
  {
  }
}
