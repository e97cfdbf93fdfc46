/** Lines out of byte streams: the connection of a remote tool, handed from the listener to the tool
    (source/remote_tools.cpp), and the event stream of Gemini (source/gemini_system.cpp). */
module LineStreams {
  import opened Options
  import opened Sequences

  // ---- Splitting at newlines ----

  /** Where the first newline is. */
  function Newline(s: string): (k: nat)
    ensures k <= |s| && (k < |s| ==> s[k] == '\n')
    ensures forall j :: 0 <= j < k ==> s[j] != '\n'
  {
    if s == "" then 0 else if s[0] == '\n' then 0 else 1 + Newline(s[1..])
  }

  function StripReturn(line: string): string {
    if line != "" && line[|line| - 1] == '\r' then line[..|line| - 1] else line
  }

  datatype Cut = NoLine | Cut(line: string, rest: string)

  /** The first complete line, if there is one, and what is behind it. */
  function Extract(buffer: string): Cut {
    var k := Newline(buffer);
    if k == |buffer| then NoLine else Cut(StripReturn(buffer[..k]), buffer[k + 1..])
  }

  /** All complete lines. */
  function Lines(s: string): seq<string>
    decreases |s|
  {
    match Extract(s)
    case NoLine => []
    case Cut(line, rest) => [line] + Lines(rest)
  }

  /** What is behind the last newline. */
  function Tail(s: string): string
    decreases |s|
  {
    match Extract(s)
    case NoLine => s
    case Cut(_, rest) => Tail(rest)
  }

  lemma {:induction false} NewlineIs(s: string, k: nat)
    requires k <= |s| && (k < |s| ==> s[k] == '\n') && forall j :: 0 <= j < k ==> s[j] != '\n'
    ensures Newline(s) == k
  {
    hide Newline;
  }

  /** A line that is complete stays what it is when more arrives. */
  lemma {:induction false} ExtractMore(a: string, b: string)
    requires Extract(a).Cut?
    ensures Extract(a + b) == Cut(Extract(a).line, Extract(a).rest + b)
  {
    var k := Newline(a);
    NewlineIs(a + b, k);
    assert (a + b)[..k] == a[..k];
    assert (a + b)[k + 1..] == a[k + 1..] + b;
    hide Newline;
  }

  /** Splitting the stream anywhere does not matter. */
  lemma {:induction false} LinesOfConcat(a: string, b: string)
    ensures Lines(a + b) == Lines(a) + Lines(Tail(a) + b)
    ensures Tail(a + b) == Tail(Tail(a) + b)
    decreases |a|
  {
    hide Newline;
    match Extract(a)
    case NoLine => NothingConcat(Lines(a + b));
    case Cut(line, rest) =>
      ExtractMore(a, b);
      LinesOfConcat(rest, b);
      ConcatAssociates([line], Lines(rest), Lines(Tail(rest) + b));
  }

  lemma {:induction false} TailHasNoLine(s: string)
    ensures Extract(Tail(s)) == NoLine
    decreases |s|
  {
    hide Newline;
    match Extract(s)
    case NoLine =>
    case Cut(_, rest) => TailHasNoLine(rest);
  }

  /** The stream with these lines and this tail. */
  function Rejoin(lines: seq<string>, tail: string): string {
    if lines == [] then tail else lines[0] + "\n" + Rejoin(lines[1..], tail)
  }

  /** The stream without the carriage return that stands directly before a newline. */
  function Normal(s: string): string {
    if s == "" then ""
    else if |s| > 1 && s[0] == '\r' && s[1] == '\n' then Normal(s[1..])
    else [s[0]] + Normal(s[1..])
  }

  ghost predicate HasPair(s: string) {
    exists k :: 0 <= k < |s| - 1 && s[k] == '\r' && s[k + 1] == '\n'
  }

  lemma {:induction false} NormalShrinks(s: string)
    ensures |Normal(s)| <= |s|
    ensures |Normal(s)| == |s| <==> !HasPair(s)
    ensures !HasPair(s) ==> Normal(s) == s
  {
    if s != "" {
      NormalShrinks(s[1..]);
      if HasPair(s[1..]) {
        var k :| 0 <= k < |s[1..]| - 1 && s[1..][k] == '\r' && s[1..][k + 1] == '\n';
        assert s[k + 1] == '\r' && s[k + 2] == '\n';
      } else if HasPair(s) {
        var k :| 0 <= k < |s| - 1 && s[k] == '\r' && s[k + 1] == '\n';
        if k > 0 { assert s[1..][k - 1] == '\r' && s[1..][k] == '\n'; }
      }
    }
  }

  lemma {:induction false} NewlineStep(s: string)
    requires s != ""
    ensures Newline(s) == if s[0] == '\n' then 0 else 1 + Newline(s[1..])
  {
  }

  lemma {:induction false} NormalStep(s: string)
    requires s != ""
    ensures Normal(s) == if |s| > 1 && s[0] == '\r' && s[1] == '\n' then Normal(s[1..]) else [s[0]] + Normal(s[1..])
  {
  }

  lemma {:induction false} StripInside(c: char, line: string)
    ensures StripReturn([c] + line) == if line == "" && c == '\r' then "" else [c] + StripReturn(line)
    ensures StripReturn("") == ""
  {
    if line != "" { assert ([c] + line)[..|line|] == [c] + line[..|line| - 1]; }
  }

  /** One character in front of a line. */
  lemma {:induction false} NormalInside(s: string)
    requires s != "" && s[0] != '\n'
    requires var t := s[1..];
             Normal(t) == var k := Newline(t); if k < |t| then StripReturn(t[..k]) + "\n" + Normal(t[k + 1..]) else t
    ensures Normal(s) == var k := Newline(s); if k < |s| then StripReturn(s[..k]) + "\n" + Normal(s[k + 1..]) else s
  {
    hide Newline, Normal, StripReturn;
    var t := s[1..];
    var k := Newline(t);
    NewlineStep(s);
    NormalStep(s);
    if k < |t| {
      var line := t[..k];
      assert s[..k + 1] == [s[0]] + line && s[k + 2..] == t[k + 1..];
      StripInside(s[0], line);
      ConcatAssociates([s[0]], StripReturn(line) + "\n", Normal(t[k + 1..]));
      ConcatAssociates([s[0]], StripReturn(line), "\n");
      if k > 0 { assert s[1] == line[0]; }
    }
  }

  lemma {:induction false} NormalToNewline(s: string)
    ensures Normal(s) == var k := Newline(s); if k < |s| then StripReturn(s[..k]) + "\n" + Normal(s[k + 1..]) else s
  {
    hide StripReturn;
    if s != "" {
      if s[0] == '\n' {
        StripInside('\n', "");
        assert s[..0] == "";
      } else {
        hide Newline, Normal;
        NormalToNewline(s[1..]);
        NormalInside(s);
      }
    }
  }

  lemma {:induction false} LineIsOne(s: string)
    ensures if Extract(s).Cut? then '\n' !in Extract(s).line else '\n' !in s
  {
    hide Newline;
  }

  /** Nothing is lost: lines and tail hold no newline, together they are the stream without the carriage returns
      before newlines, and they are the stream byte for byte exactly if there are none of these. */
  lemma {:induction false} NothingIsLost(s: string)
    ensures Rejoin(Lines(s), Tail(s)) == Normal(s)
    ensures Rejoin(Lines(s), Tail(s)) == s <==> !HasPair(s)
    ensures '\n' !in Tail(s) && forall k :: 0 <= k < |Lines(s)| ==> '\n' !in Lines(s)[k]
    decreases |s|
  {
    hide Newline, StripReturn, HasPair;
    NormalToNewline(s);
    NormalShrinks(s);
    LinesUnfold(s);
    LineIsOne(s);
    if Extract(s).Cut? {
      NothingIsLost(Extract(s).rest);
      assert ([Extract(s).line] + Lines(Extract(s).rest))[1..] == Lines(Extract(s).rest);
    }
  }

  lemma {:induction false} LinesUnfold(s: string)
    ensures match Extract(s)
            case NoLine => Lines(s) == [] && Tail(s) == s
            case Cut(line, rest) => Lines(s) == [line] + Lines(rest) && Tail(s) == Tail(rest)
  {
    hide Newline;
  }

  // ---- A connection ----

  const CHUNK: nat := 4096

  /** Bytes the kernel holds for us, and whether the peer has closed. */
  class Socket {
    var queue: string
    var closed: bool

    constructor ()
      ensures queue == "" && !closed
    {
      queue, closed := "", false;
    }

    /** Takes up to `max` bytes; nothing at all when there are none yet. */
    method Read(max: nat) returns (got: string, ended: bool)
      requires max > 0
      modifies this`queue
      ensures got == old(queue)[..Least(max, |old(queue)|)] && queue == old(queue)[Least(max, |old(queue)|)..]
      ensures ended == (closed && old(queue) == "")
    {
      ended := closed && queue == "";
      var k := Least(max, |queue|);
      got, queue := queue[..k], queue[k..];
    }
  }

  function Least(a: nat, b: nat): nat { if a < b then a else b }

  /** What a poll leaves in the buffer and in the kernel, and the line it delivers, if any. */
  datatype Poll = Poll(buffer: string, queue: string, line: Option<string>, over: bool)

  /** How many bytes a listener takes: up to and including the first newline, 4096 at most. */
  function TakenByListener(queue: string): nat {
    Least(Newline(queue) + 1, Least(CHUNK, |queue|))
  }

  function ListenerPoll(buffer: string, queue: string, closed: bool): Poll {
    var k := TakenByListener(queue);
    var read, left := buffer + queue[..k], queue[k..];
    match Extract(read)
    case Cut(line, rest) => Poll(rest, left, Some(line), false)
    case NoLine => if closed && left == "" && k < CHUNK then Poll("", left, None, true) else Poll(read, left, None, false)
  }

  function RemotePoll(buffer: string, queue: string, closed: bool): Poll {
    match Extract(buffer)
    case Cut(line, rest) => Poll(rest, queue, Some(line), false)
    case NoLine =>
      if queue == "" then Poll(if closed then "" else buffer, "", None, closed)
      else
        var k := Least(CHUNK, |queue|);
        match Extract(buffer + queue[..k])
        case Cut(line, rest) => Poll(rest, queue[k..], Some(line), false)
        case NoLine => Poll(buffer + queue[..k], queue[k..], None, false)
  }

  method ExtractLine(buffer: string) returns (found: bool, line: string, rest: string)
    ensures if found then Extract(buffer) == Cut(line, rest) else Extract(buffer) == NoLine && rest == buffer
  {
    var k := 0;
    while k < |buffer| && buffer[k] != '\n'
      invariant k <= |buffer| && forall j :: 0 <= j < k ==> buffer[j] != '\n'
    {
      k := k + 1;
    }
    NewlineIs(buffer, k);
    if k == |buffer| { return false, "", buffer; }
    return true, StripReturn(buffer[..k]), buffer[k + 1..];
  }

  /** Reads a connection's first line and not one byte more. */
  class Listener {
    var buffer: string

    constructor ()
      ensures buffer == ""
    {
      buffer := "";
    }

    /** Takes bytes one at a time, up to a newline or the cap; `ended` when the peer closed before either. */
    method TakeBytes(socket: Socket) returns (ended: bool)
      modifies this, socket`queue
      ensures var most := TakenByListener(old(socket.queue));
              && buffer == old(buffer) + old(socket.queue)[..most] && socket.queue == old(socket.queue)[most..]
              && ended == (socket.closed && most < CHUNK && Newline(old(socket.queue)) == most)
    {
      hide Newline;
      ended := false;
      ghost var queue, before := socket.queue, buffer;
      ConcatNothing(before);
      var i := 0;
      while i < CHUNK
        invariant i <= CHUNK && i <= |queue| && !ended
        invariant buffer == before + queue[..i] && socket.queue == queue[i..]
        invariant forall j :: 0 <= j < i ==> queue[j] != '\n'
      {
        var c, atEnd := socket.Read(1);
        if c == "" {
          NewlineIs(queue, |queue|);
          return atEnd;
        }
        assert c == [queue[i]] && queue[..i + 1] == queue[..i] + c;
        ConcatAssociates(before, queue[..i], c);
        buffer := buffer + c;
        if c == "\n" {
          NewlineIs(queue, i);
          return;
        }
        i := i + 1;
      }
      NotYet(queue, i);
    }

    method PollOnce(socket: Socket) returns (line: Option<string>, over: bool)
      requires Extract(buffer) == NoLine
      modifies this, socket`queue
      ensures Poll(buffer, socket.queue, line, over) == ListenerPoll(old(buffer), old(socket.queue), socket.closed)
      ensures line.Some? ==> buffer == ""
      ensures line.None? ==> Extract(buffer) == NoLine
    {
      hide Newline;
      ghost var before, queue := buffer, socket.queue;
      var ended := TakeBytes(socket);
      var found, first, rest := ExtractLine(buffer);
      line, over := None, false;
      ListenerLine(before, queue);
      if found {
        line, buffer := Some(first), rest;
      } else if ended {
        over, buffer := true, "";
        NewlineIs("", 0);
      }
    }
  }

  lemma {:induction false} NotYet(queue: string, i: nat)
    requires i <= |queue| && i >= CHUNK && forall j :: 0 <= j < i ==> queue[j] != '\n'
    ensures Newline(queue) >= i
  {
    hide Newline;
  }

  lemma {:induction false} NewlineOfConcat(a: string, b: string)
    requires Newline(a) == |a|
    ensures Newline(a + b) == |a| + Newline(b)
  {
    NewlineIs(a + b, |a| + Newline(b));
  }

  lemma {:induction false} NewlineOfTaken(queue: string)
    ensures var k := TakenByListener(queue);
            Newline(queue[..k]) == if Newline(queue) < |queue| && k == Newline(queue) + 1 then k - 1 else k
  {
    var k, n := TakenByListener(queue), Newline(queue);
    if n < |queue| && k == n + 1 {
      NewlineIs(queue[..k], n);
    } else {
      NewlineIs(queue[..k], k);
    }
    hide Newline;
  }

  /** The listener stops at the newline, so nothing is left in its buffer when the connection changes hands. */
  lemma {:induction false} ListenerLine(before: string, queue: string)
    requires Extract(before) == NoLine
    ensures var k := TakenByListener(queue);
            match Extract(before + queue[..k])
            case Cut(_, rest) => rest == "" && Newline(queue) < k
            case NoLine => queue[k..] == "" && k < CHUNK <==> Newline(queue) == k && k < CHUNK
  {
    hide Newline;
    var k := TakenByListener(queue);
    NewlineOfTaken(queue);
    NewlineOfConcat(before, queue[..k]);
  }

  /** Reads whatever has arrived and gives one line a poll. */
  class Reader {
    var buffer: string

    constructor ()
      ensures buffer == ""
    {
      buffer := "";
    }

    method PollOnce(socket: Socket) returns (line: Option<string>, over: bool)
      modifies this, socket`queue
      ensures Poll(buffer, socket.queue, line, over) == RemotePoll(old(buffer), old(socket.queue), socket.closed)
    {
      line, over := None, false;
      var found, first, rest := ExtractLine(buffer);
      if !found {
        var got, ended := socket.Read(CHUNK);
        if got != "" {
          buffer := buffer + got;
          found, first, rest := ExtractLine(buffer);
        } else if ended {
          over, buffer := true, "";
          return;
        }
      }
      if found { line, buffer := Some(first), rest; }
    }
  }

  // ---- A connection's whole life ----

  datatype Phase = Registering | Serving | Gone

  /** `total` is all that has arrived while we had the connection, `delivered` the lines handed on. */
  datatype Connection = Connection(phase: Phase, buffer: string, queue: string, closed: bool, total: string,
                                   delivered: seq<string>)

  /** `accepted` says whether the first line is a good registration, if this tick delivers it; `cut` whether what
      the tick writes behind its read fails (a pong, a ping, a call, or the identity sent on registration) or the
      peer has been silent for too long. */
  datatype Event = Arrives(bytes: string) | Closes | Ticks(accepted: bool, cut: bool)

  function Polled(c: Connection): Poll {
    if c.phase == Registering then ListenerPoll(c.buffer, c.queue, c.closed)
    else RemotePoll(c.buffer, c.queue, c.closed)
  }

  function Deliver(c: Connection, p: Poll): Connection {
    c.(buffer := p.buffer, queue := p.queue,
       delivered := c.delivered + if p.line.Some? then [p.line.value] else [],
       phase := if p.over then Gone else c.phase)
  }

  /** Our side gives the connection up. */
  predicate Drops(c: Connection, e: Event) {
    && e.Ticks? && c.phase != Gone && !Polled(c).over
    && if c.phase == Registering then Polled(c).line.Some? && (!e.accepted || e.cut) else e.cut
  }

  function Happen(c: Connection, e: Event): Connection {
    match e
    case Arrives(bytes) =>
      if c.closed || c.phase == Gone then c else c.(queue := c.queue + bytes, total := c.total + bytes)
    case Closes => c.(closed := true)
    case Ticks(_, _) =>
      if c.phase == Gone then c
      else
        var after := Deliver(c, Polled(c));
        if Drops(c, e) then after.(phase := Gone, buffer := "")
        else if c.phase == Registering && Polled(c).line.Some? then after.(phase := Serving, buffer := "")
        else after
  }

  function After(events: seq<Event>): Connection {
    if events == [] then Connection(Registering, "", "", false, "", [])
    else Happen(After(events[..|events| - 1]), events[|events| - 1])
  }

  /** The connection is given up while a complete line still waits in the buffer or in the kernel. */
  ghost predicate LosesALine(c: Connection, e: Event) {
    Drops(c, e) && Extract(Polled(c).buffer + Polled(c).queue).Cut?
  }

  ghost predicate LineLost(events: seq<Event>) {
    events != [] && (LineLost(events[..|events| - 1]) || LosesALine(After(events[..|events| - 1]), events[|events| - 1]))
  }

  /** What is left to deliver, after what was delivered, is the whole stream. */
  ghost predicate Keeps(c: Connection) {
    && (c.phase == Registering ==> Extract(c.buffer) == NoLine)
    && (c.phase != Gone ==>
          (Lines(c.total) == c.delivered + Lines(c.buffer + c.queue) && Tail(c.total) == Tail(c.buffer + c.queue)))
  }

  /** What a poll that reads k bytes on does to buffer and queue. */
  lemma {:induction false} ReadOn(buffer: string, queue: string, k: nat)
    requires k <= |queue|
    ensures buffer + queue[..k] + queue[k..] == buffer + queue
    ensures match Extract(buffer + queue[..k])
            case NoLine => true
            case Cut(line, rest) =>
              Lines(buffer + queue) == [line] + Lines(rest + queue[k..]) && Tail(buffer + queue) == Tail(rest + queue[k..])
  {
    hide Extract, Lines, Tail;
    SplitAt(queue, k);
    ConcatAssociates(buffer, queue[..k], queue[k..]);
    if Extract(buffer + queue[..k]).Cut? {
      ExtractMore(buffer + queue[..k], queue[k..]);
      LinesUnfold(buffer + queue);
    }
  }

  ghost predicate PollKeeps(buffer: string, queue: string, p: Poll) {
    && (!p.over ==>
          (&& Lines(buffer + queue) == (if p.line.Some? then [p.line.value] else []) + Lines(p.buffer + p.queue)
           && Tail(buffer + queue) == Tail(p.buffer + p.queue)))
    && (p.over ==> (p.line.None? && Lines(buffer + queue) == []))
  }

  lemma {:induction false} RemotePollKeeps(buffer: string, queue: string, closed: bool)
    ensures PollKeeps(buffer, queue, RemotePoll(buffer, queue, closed))
    ensures RemotePoll(buffer, queue, closed).over ==> closed
  {
    hide Extract, Lines, Tail;
    ReadOn(buffer, queue, 0);
    ConcatNothing(buffer);
    assert queue[..0] == "" && queue[0..] == queue;
    LinesUnfold(buffer);
    if Extract(buffer).NoLine? && queue != "" {
      ReadOn(buffer, queue, Least(CHUNK, |queue|));
    }
    NothingConcat(Lines(RemotePoll(buffer, queue, closed).buffer + RemotePoll(buffer, queue, closed).queue));
  }

  lemma {:induction false} ListenerPollKeeps(buffer: string, queue: string, closed: bool)
    requires Extract(buffer) == NoLine
    ensures PollKeeps(buffer, queue, ListenerPoll(buffer, queue, closed))
    ensures ListenerPoll(buffer, queue, closed).over ==> closed
    ensures ListenerPoll(buffer, queue, closed).line.Some? ==> ListenerPoll(buffer, queue, closed).buffer == ""
    ensures ListenerPoll(buffer, queue, closed).line.None? ==> Extract(ListenerPoll(buffer, queue, closed).buffer) == NoLine
  {
    hide Extract, Lines, Tail, TakenByListener, Newline;
    var k := TakenByListener(queue);
    TakesInside(queue);
    ReadOn(buffer, queue, k);
    ListenerLine(buffer, queue);
    LinesUnfold(buffer + queue);
    LinesUnfold("");
    assert Extract("") == NoLine by { NoLineInNothing(); }
    ConcatNothing(buffer + queue[..k]);
    NothingConcat(Lines(ListenerPoll(buffer, queue, closed).buffer + ListenerPoll(buffer, queue, closed).queue));
  }

  lemma {:induction false} TakesInside(queue: string)
    ensures TakenByListener(queue) <= |queue|
  {
    hide Newline;
  }

  lemma {:induction false} NoLineInNothing()
    ensures Extract("") == NoLine
  {
  }

  lemma {:induction false} TickKeeps(c: Connection, p: Poll)
    requires Keeps(c) && c.phase != Gone && PollKeeps(c.buffer, c.queue, p)
    ensures !p.over ==> Lines(c.total) == Deliver(c, p).delivered + Lines(p.buffer + p.queue)
    ensures !p.over ==> Tail(c.total) == Tail(p.buffer + p.queue)
    ensures p.over ==> Deliver(c, p).delivered == Lines(c.total)
  {
    hide Extract, Lines, Tail;
    ConcatAssociates(c.delivered, if p.line.Some? then [p.line.value] else [], Lines(p.buffer + p.queue));
    ConcatNothing(c.delivered);
  }

  lemma {:induction false} ArrivalKeeps(c: Connection, bytes: string)
    requires Keeps(c) && !c.closed && c.phase != Gone
    ensures Keeps(c.(queue := c.queue + bytes, total := c.total + bytes))
  {
    hide Extract, Lines, Tail;
    LinesOfConcat(c.total, bytes);
    LinesOfConcat(c.buffer + c.queue, bytes);
    ConcatAssociates(c.buffer, c.queue, bytes);
    ConcatAssociates(c.delivered, Lines(c.buffer + c.queue), Lines(Tail(c.total) + bytes));
  }

  lemma {:induction false} PolledKeeps(c: Connection)
    requires Keeps(c) && c.phase != Gone
    ensures PollKeeps(c.buffer, c.queue, Polled(c))
    ensures c.phase == Registering ==>
              if Polled(c).line.Some? then Polled(c).buffer == "" else Extract(Polled(c).buffer) == NoLine
  {
    hide Extract, Lines, Tail, ListenerPoll, RemotePoll, PollKeeps;
    if c.phase == Registering {
      ListenerPollKeeps(c.buffer, c.queue, c.closed);
    } else {
      RemotePollKeeps(c.buffer, c.queue, c.closed);
    }
  }

  lemma {:induction false} PollIsOneThing(buffer: string, queue: string, p: Poll)
    requires PollKeeps(buffer, queue, p)
    ensures p.over ==> p.line.None?
  {
    hide Lines, Tail;
  }

  /** A tick that ends the connection has delivered all there was, unless it gives up a waiting line. */
  lemma {:induction false} HappenKeeps(c: Connection, e: Event)
    requires Keeps(c) && c.phase != Gone
    ensures Keeps(Happen(c, e))
    ensures var after := Happen(c, e);
            && after.delivered <= Lines(after.total)
            && (after.phase == Gone ==> (after.delivered == Lines(after.total) <==> !LosesALine(c, e)))
            && (LosesALine(c, e) ==> after.phase == Gone)
  {
    hide Extract, Lines, Tail, Polled, PollKeeps;
    match e
    case Arrives(bytes) => if !c.closed { ArrivalKeeps(c, bytes); }
    case Closes =>
    case Ticks(_, _) =>
      var p := Polled(c);
      PolledKeeps(c);
      PollIsOneThing(c.buffer, c.queue, p);
      TickKeeps(c, p);
      LinesUnfold(p.buffer + p.queue);
      ConcatNothing(Deliver(c, p).delivered);
  }

  /** However the bytes arrive and whenever the connection is polled, the lines delivered are the first ones of
      the newline-split of the whole stream, in order, and the rest wait in the buffer and the kernel, also across
      the handoff from the listener to the tool.  Once the connection has ended all of them were delivered,
      exactly if it was not given up while a complete line was waiting. */
  lemma {:induction false} EveryLineOnceInOrder(events: seq<Event>)
    ensures var c := After(events);
            && c.delivered <= Lines(c.total)
            && (c.phase != Gone ==> Lines(c.total) == c.delivered + Lines(c.buffer + c.queue))
            && (c.phase == Gone ==> (c.delivered == Lines(c.total) <==> !LineLost(events)))
            && (LineLost(events) ==> c.phase == Gone)
            && Keeps(c)
  {
    if events == [] {
      NoLineInNothing();
      LinesUnfold("");
    } else {
      hide Extract, Lines, Tail, Happen, Keeps, LosesALine;
      var before := events[..|events| - 1];
      EveryLineOnceInOrder(before);
      if After(before).phase == Gone {
        GoneStays(After(before), events[|events| - 1]);
      } else {
        HappenKeeps(After(before), events[|events| - 1]);
      }
      if After(events).phase != Gone { KeepsMeans(After(events)); }
    }
  }

  lemma {:induction false} GoneStays(c: Connection, e: Event)
    requires c.phase == Gone
    ensures Happen(c, e) == c.(closed := Happen(c, e).closed) && !LosesALine(c, e) && Keeps(Happen(c, e))
  {
    hide Polled, Extract;
  }

  lemma {:induction false} KeepsMeans(c: Connection)
    requires Keeps(c) && c.phase != Gone
    ensures Lines(c.total) == c.delivered + Lines(c.buffer + c.queue)
  {
    hide Lines, Tail, Extract;
  }

  lemma {:induction false} FirstCut(line: string, rest: string)
    requires forall k :: 0 <= k < |line| ==> line[k] != '\n' && line[k] != '\r'
    ensures Extract(line + "\n" + rest) == Cut(line, rest)
  {
    var s := line + "\n" + rest;
    NewlineIs(s, |line|);
    assert s[..|line|] == line && s[|line| + 1..] == rest;
    hide Newline;
  }

  lemma {:induction false} FirstTick(line: string, c: Connection)
    requires c == Connection(Registering, "", line + "\n", false, line + "\n", []) && |line| < CHUNK
    requires forall k :: 0 <= k < |line| ==> line[k] != '\n' && line[k] != '\r'
    ensures Happen(c, Ticks(true, false)) == c.(phase := Serving, queue := "", delivered := [line])
  {
    FirstCut(line, "");
    ConcatNothing(line + "\n");
    NewlineIs(c.queue, |line|);
    NothingConcat(c.queue);
    assert c.queue[..|c.queue|] == c.queue && c.queue[|c.queue|..] == "";
    hide Newline, Extract;
  }

  lemma {:induction false} FirstPoll(line: string, rest: string, queue: string, closed: bool)
    requires queue == line + "\n" + rest && |queue| < CHUNK
    requires forall k :: 0 <= k < |line| ==> line[k] != '\n' && line[k] != '\r'
    ensures RemotePoll("", queue, closed) == Poll(rest, "", Some(line), false)
  {
    hide Extract, Newline;
    NoLineInNothing();
    FirstCut(line, rest);
    NothingConcat(queue);
    assert queue[..|queue|] == queue && queue[|queue|..] == "";
  }

  lemma {:induction false} BrokenTick(line: string, rest: string, c: Connection)
    requires c.phase == Serving && c.buffer == "" && c.queue == line + "\n" + rest && |c.queue| < CHUNK
    requires forall k :: 0 <= k < |line| ==> line[k] != '\n' && line[k] != '\r'
    ensures Happen(c, Ticks(true, true)) == c.(phase := Gone, queue := "", delivered := c.delivered + [line])
  {
    hide RemotePoll;
    FirstPoll(line, rest, c.queue, c.closed);
  }

  /** A peer that sends a ping and a result and is gone before the pong is written: the result was read and is
      not delivered. */
  lemma {:induction false} ResultIsLost()
    ensures var run := [Arrives("register\n"), Ticks(true, false), Arrives("ping\nresult\n"), Closes, Ticks(true, true)];
            && After(run).phase == Gone
            && After(run).delivered == ["register", "ping"]
            && Lines(After(run).total) == ["register", "ping", "result"]
  {
    hide Polled, Drops, Extract, Lines;
    var one := [Arrives("register\n")];
    var two := one + [Ticks(true, false)];
    var three := two + [Arrives("ping\nresult\n")];
    var four := three + [Closes];
    var run := four + [Ticks(true, true)];
    assert one[..0] == [] && After([]).phase == Registering;
    InitOfSnoc(one, Ticks(true, false));
    InitOfSnoc(two, Arrives("ping\nresult\n"));
    InitOfSnoc(three, Closes);
    InitOfSnoc(four, Ticks(true, true));
    assert "register" + "\n" == "register\n" && "ping" + "\n" + "result\n" == "ping\nresult\n";
    assert After(one) == Connection(Registering, "", "register\n", false, "register\n", []);
    FirstTick("register", After(one));
    assert After(three).queue == "ping\nresult\n" && After(three).total == "register\n" + "ping\nresult\n";
    BrokenTick("ping", "result\n", After(four));
    ThreeLines();
    assert run == [Arrives("register\n"), Ticks(true, false), Arrives("ping\nresult\n"), Closes, Ticks(true, true)];
  }

  lemma {:induction false} ThreeLines()
    ensures Lines("register\n" + "ping\nresult\n") == ["register", "ping", "result"]
  {
    hide Extract, Lines;
    FirstCut("register", "ping\nresult\n");
    FirstCut("ping", "result\n");
    FirstCut("result", "");
    assert "register\n" + "ping\nresult\n" == "register" + "\n" + "ping\nresult\n";
    assert "ping\nresult\n" == "ping" + "\n" + "result\n";
    assert "result\n" == "result" + "\n" + "";
    NoLineInNothing();
    LinesUnfold("register\n" + "ping\nresult\n");
    LinesUnfold("ping\nresult\n");
    LinesUnfold("result\n");
    LinesUnfold("");
  }

  // ---- Server-sent events ----

  predicate IsData(line: string) {
    |line| >= 5 && line[..5] == "data:"
  }

  function SkipSpaces(s: string): string {
    if s != "" && s[0] == ' ' then SkipSpaces(s[1..]) else s
  }

  predicate IsDone(s: string) {
    |s| >= 6 && s[..6] == "[DONE]"
  }

  /** The payload of a line, if it has one. */
  function Payload(line: string): Option<string> {
    if !IsData(line) then None
    else
      var payload := SkipSpaces(line[5..]);
      if payload == "" || IsDone(payload) then None else Some(payload)
  }

  function Payloads(lines: seq<string>): seq<string> {
    if lines == [] then []
    else Payloads(lines[..|lines| - 1])
         + if Payload(lines[|lines| - 1]).Some? then [Payload(lines[|lines| - 1]).value] else []
  }

  lemma {:induction false} PayloadsConcat(a: seq<string>, b: seq<string>)
    ensures Payloads(a + b) == Payloads(a) + Payloads(b)
  {
    if b == [] {
      ConcatNothing(a);
      ConcatNothing(Payloads(a));
    } else {
      hide Payload;
      SnocOfConcat(a, b);
      PayloadsConcat(a, b[..|b| - 1]);
      ConcatAssociates(Payloads(a), Payloads(b[..|b| - 1]),
                       if Payload(b[|b| - 1]).Some? then [Payload(b[|b| - 1]).value] else []);
    }
  }

  function Spaces(n: nat): string {
    if n == 0 then "" else " " + Spaces(n - 1)
  }

  lemma {:induction false} SkipsSpaces(n: nat, text: string)
    requires text == "" || text[0] != ' '
    ensures SkipSpaces(Spaces(n) + text) == text
  {
    if n == 0 {
      NothingConcat(text);
    } else {
      SkipsSpaces(n - 1, text);
      assert (Spaces(n) + text)[1..] == Spaces(n - 1) + text;
    }
  }

  /** A data line gives what is behind its spaces, unless that is nothing or the end mark; no other line gives
      anything. */
  lemma {:induction false} PayloadMeans(n: nat, text: string, line: string)
    requires text == "" || text[0] != ' '
    ensures Payload("data:" + (Spaces(n) + text))
            == if text == "" || "[DONE]" <= text then None else Some(text)
    ensures !("data:" <= line) ==> Payload(line) == None
  {
    var data := "data:" + (Spaces(n) + text);
    assert data[..5] == "data:" && data[5..] == Spaces(n) + text;
    SkipsSpaces(n, text);
    assert IsDone(text) <==> "[DONE]" <= text;
    assert |line| >= 5 && line[..5] == "data:" ==> "data:" <= line;
  }

  /** The stream of some events, as a server writes it, with line ends of its choice. */
  function EventsOf(payloads: seq<string>, withReturn: bool): string {
    var end := if withReturn then "\r\n" else "\n";
    if payloads == [] then ""
    else ("data: " + payloads[0] + end) + (end + EventsOf(payloads[1..], withReturn))
  }

  ghost predicate PlainPayload(text: string) {
    text != "" && text[0] != ' ' && !("[DONE]" <= text) && '\n' !in text && '\r' !in text
  }

  lemma {:induction false} OneEvent(payload: string, withReturn: bool, rest: string)
    requires PlainPayload(payload)
    ensures var end := if withReturn then "\r\n" else "\n";
            Lines(("data: " + payload + end) + (end + rest)) == ["data: " + payload] + ([""] + Lines(rest))
  {
    hide Newline, Lines;
    var line, end := "data: " + payload, if withReturn then "\r\n" else "\n";
    var all, others := (line + end) + (end + rest), end + rest;
    LinesUnfold(all);
    LinesUnfold(others);
    EndedLine(line, withReturn, others);
    EndedLine("", withReturn, rest);
    NothingConcat(end);
  }

  lemma {:induction false} EndedLine(line: string, withReturn: bool, rest: string)
    requires '\n' !in line && '\r' !in line
    ensures var end := if withReturn then "\r\n" else "\n"; Extract((line + end) + rest) == Cut(line, rest)
  {
    var end := if withReturn then "\r\n" else "\n";
    var s := (line + end) + rest;
    var k := if withReturn then |line| + 1 else |line|;
    NewlineIs(s, k);
    assert s[..k] == if withReturn then line + "\r" else line;
    assert s[k + 1..] == rest;
    hide Newline;
  }

  /** What a server writes as events is read as exactly these, in order. */
  lemma {:induction false} EventsRoundTrip(payloads: seq<string>, withReturn: bool)
    requires forall k :: 0 <= k < |payloads| ==> PlainPayload(payloads[k])
    ensures Payloads(Lines(EventsOf(payloads, withReturn))) == payloads
  {
    hide Lines, Payload, PlainPayload;
    if payloads == [] {
      NoEvents();
    } else {
      var first, rest := payloads[0], EventsOf(payloads[1..], withReturn);
      EventsRoundTrip(payloads[1..], withReturn);
      OneEvent(first, withReturn, rest);
      PayloadsConcat(["data: " + first], [""] + Lines(rest));
      PayloadsConcat([""], Lines(rest));
      PlainIsRead(first);
      NothingConcat(Payloads(Lines(rest)));
    }
  }

  lemma {:induction false} NoEvents()
    ensures Payloads(Lines("")) == []
  {
    NoLineInNothing();
    LinesUnfold("");
  }

  lemma {:induction false} PlainIsRead(text: string)
    requires PlainPayload(text)
    ensures Payloads(["data: " + text]) == [text] && Payloads([""]) == []
  {
    PayloadMeans(1, text, "");
    assert "data: " + text == "data:" + (Spaces(1) + text);
    assert ["data: " + text][..0] == [] && [""][..0] == [];
    hide Payload;
    assert Payload("data: " + text) == Some(text) && Payload("") == None;
  }

  method FindPayload(line: string) returns (payload: Option<string>)
    ensures payload == Payload(line)
  {
    if !IsData(line) { return None; }
    var rest := line[5..];
    var first := 0;
    while first < |rest| && rest[first] == ' '
      invariant first <= |rest| && SkipSpaces(rest[first..]) == SkipSpaces(rest)
    {
      assert rest[first..][1..] == rest[first + 1..];
      first := first + 1;
    }
    if first == |rest| || IsDone(rest[first..]) { return None; }
    return Some(rest[first..]);
  }

  class EventStream {
    var lineBuffer: string
    var events: seq<string>

    constructor ()
      ensures lineBuffer == "" && events == []
    {
      lineBuffer, events := "", [];
    }

    /** The events so far are those of this stream, and the buffer holds its unfinished line. */
    ghost predicate Holds(stream: string)
      reads this
    {
      lineBuffer == Tail(stream) && events == Payloads(Lines(stream))
    }

    /** One more chunk of the stream, cut anywhere. */
    method Write(ghost stream: string, data: string)
      requires Holds(stream)
      modifies this
      ensures Holds(stream + data)
    {
      hide Extract, Payload;
      LinesOfConcat(stream, data);
      PayloadsConcat(Lines(stream), Lines(lineBuffer + data));
      lineBuffer := lineBuffer + data;
      ghost var before, chunk := events, lineBuffer;
      NothingConcat(Payloads(Lines(chunk)));
      ghost var done: seq<string> := [];
      ConcatNothing(before);
      NothingConcat(Lines(chunk));
      while true
        invariant done + Lines(lineBuffer) == Lines(chunk) && Tail(lineBuffer) == Tail(chunk)
        invariant events == before + Payloads(done)
        decreases |lineBuffer|
      {
        LinesUnfold(lineBuffer);
        var found, line, rest := ExtractLine(lineBuffer);
        if !found {
          ConcatNothing(done);
          break;
        }
        Shorter(lineBuffer);
        ConcatAssociates(done, [line], Lines(rest));
        InitOfSnoc(done, line);
        ConcatAssociates(before, Payloads(done), if Payload(line).Some? then [Payload(line).value] else []);
        lineBuffer := rest;
        var payload := FindPayload(line);
        if payload.Some? {
          events := events + [payload.value];
        } else {
          ConcatNothing(Payloads(done));
        }
        done := done + [line];
      }
    }
  }

  lemma {:induction false} Shorter(s: string)
    requires Extract(s).Cut?
    ensures |Extract(s).rest| < |s|
  {
    hide Newline;
  }

  function Joined(chunks: seq<string>): string {
    if chunks == [] then "" else Joined(chunks[..|chunks| - 1]) + chunks[|chunks| - 1]
  }

  /** A stream cut into any chunks gives the events of the uncut stream. */
  method ReadStream(chunks: seq<string>) returns (events: seq<string>)
    ensures events == Payloads(Lines(Joined(chunks)))
  {
    var stream := new EventStream();
    LinesUnfold("");
    NoLineInNothing();
    for k := 0 to |chunks|
      invariant stream.Holds(Joined(chunks[..k]))
      invariant fresh(stream)
    {
      hide Lines, Tail, Payloads;
      assert chunks[..k + 1][..k] == chunks[..k];
      stream.Write(Joined(chunks[..k]), chunks[k]);
    }
    assert chunks[..|chunks|] == chunks;
    return stream.events;
  }
}
