/** How a history of messages becomes the turns sent to Gemini (source/gemini_system.cpp): turns alternate
    and every function call is answered at once, though results in the history arrive late, twice or never. */
module GeminiContents {
  import opened Options
  import opened Sequences

  datatype Role = System | User | Assistant | Tool | Other

  datatype Args = Object(text: string) | NotAnObject

  datatype Call = Call(id: string, name: string, args: Args, signature: string)

  /** `level` is below 0 for a protected message; `callId` is the call a tool message is the result of. */
  datatype Message = Message(role: Role, level: int, content: string, callId: string, calls: seq<Call>)

  datatype Part =
    | TextPart(text: string)
    | CallPart(id: string, name: string, args: Args, signature: string)
    | ResponsePart(id: string, name: string, result: string)

  datatype Turn = Turn(isModel: bool, parts: seq<Part>)

  const PENDING_RESULT := "(no result has come back for this call yet - it was already requested, do not request it again)"
  const EARLIER := "(earlier conversation not shown)"
  const NO_SIGNATURE := "skip_thought_signature_validator"

  // ---- Which result answers which call ----

  predicate IsBlank(c: char) { c == ' ' || c == '\t' || c == '\r' || c == '\n' }

  predicate HasVisibleText(text: string) {
    exists k :: 0 <= k < |text| && !IsBlank(text[k])
  }

  predicate IsResultOf(m: Message, id: string) {
    m.role == Tool && id != "" && m.callId == id
  }

  /** The first of the first n messages that is a result of the call. */
  function FirstBefore(history: seq<Message>, id: string, n: nat): (t: Option<nat>)
    requires n <= |history|
    ensures t.Some? ==> t.value < n && IsResultOf(history[t.value], id)
  {
    if n == 0 then None
    else
      var t := FirstBefore(history, id, n - 1);
      if t.None? && IsResultOf(history[n - 1], id) then Some(n - 1) else t
  }

  function FirstResult(history: seq<Message>, id: string): Option<nat> {
    FirstBefore(history, id, |history|)
  }

  predicate Asks(c: Call, id: string) { c.name != "" && c.id == id }

  /** One of the first j calls has this id and a name. */
  predicate AskedIn(calls: seq<Call>, id: string, j: nat)
    requires j <= |calls|
  {
    j > 0 && (AskedIn(calls, id, j - 1) || Asks(calls[j - 1], id))
  }

  /** One of the first i messages asks with this id. */
  predicate AskedBy(history: seq<Message>, id: string, i: nat)
    requires i <= |history|
  {
    i > 0 && (AskedBy(history, id, i - 1)
              || (history[i - 1].role == Assistant && AskedIn(history[i - 1].calls, id, |history[i - 1].calls|)))
  }

  /** A call before call j of message i asks with this id. */
  predicate Asked(history: seq<Message>, id: string, i: nat, j: nat)
    requires i < |history| && j <= |history[i].calls|
  {
    AskedBy(history, id, i) || (history[i].role == Assistant && AskedIn(history[i].calls, id, j))
  }

  /** The result that answers call j of message i: the first result with its id, if that comes later and no
      earlier call has it. */
  function AnswerOf(history: seq<Message>, i: nat, j: nat): (t: Option<nat>)
    requires i < |history| && history[i].role == Assistant && j < |history[i].calls|
    ensures t.Some? ==> i < t.value < |history|
  {
    var c := history[i].calls[j];
    var t := FirstResult(history, c.id);
    if c.name != "" && t.Some? && t.value > i && !Asked(history, c.id, i, j) then t else None
  }

  /** The message is a result that a call before it has taken. */
  predicate Taken(history: seq<Message>, t: nat)
    requires t < |history|
  {
    FirstResult(history, history[t].callId) == Some(t) && AskedBy(history, history[t].callId, t)
  }

  // ---- What each message adds ----

  function TextParts(text: string): seq<Part> {
    if HasVisibleText(text) then [TextPart(text)] else []
  }

  predicate AnySignature(calls: seq<Call>) {
    exists k :: 0 <= k < |calls| && calls[k].signature != ""
  }

  predicate AnyNamed(calls: seq<Call>, j: nat)
    requires j <= |calls|
  {
    exists k :: 0 <= k < j && calls[k].name != ""
  }

  function SignatureOf(calls: seq<Call>, j: nat): string
    requires j < |calls|
  {
    if calls[j].signature != "" then calls[j].signature
    else if !AnySignature(calls) && !AnyNamed(calls, j) then NO_SIGNATURE
    else ""
  }

  function SentCall(calls: seq<Call>, j: nat): Part
    requires j < |calls|
  {
    var c := calls[j];
    CallPart(c.id, c.name, if c.args.Object? then c.args else Object("{}"), SignatureOf(calls, j))
  }

  function CallParts(calls: seq<Call>, j: nat): seq<Part>
    requires j <= |calls|
  {
    if j == 0 then []
    else CallParts(calls, j - 1) + if calls[j - 1].name == "" then [] else [SentCall(calls, j - 1)]
  }

  function ResultText(history: seq<Message>, t: Option<nat>): string
    requires t.Some? ==> t.value < |history|
  {
    if t.Some? then history[t.value].content else PENDING_RESULT
  }

  function ResponseParts(history: seq<Message>, i: nat, j: nat): seq<Part>
    requires i < |history| && history[i].role == Assistant && j <= |history[i].calls|
  {
    if j == 0 then []
    else
      var c := history[i].calls[j - 1];
      ResponseParts(history, i, j - 1) + if c.name == "" then [] else
        [ResponsePart(c.id, c.name, ResultText(history, AnswerOf(history, i, j - 1)))]
  }

  function ModelParts(m: Message): seq<Part> {
    if m.role == Assistant then TextParts(m.content) + CallParts(m.calls, |m.calls|) else []
  }

  function UserParts(history: seq<Message>, i: nat): seq<Part>
    requires i < |history|
  {
    var m := history[i];
    match m.role
    case System => if m.level < 0 then [] else TextParts(m.content)
    case User => TextParts(m.content)
    case Assistant => ResponseParts(history, i, |m.calls|)
    case Tool => if Taken(history, i) then [] else TextParts("[Tool result] " + m.content)
    case Other => []
  }

  function AddTurn(turns: seq<Turn>, isModel: bool, parts: seq<Part>): seq<Turn> {
    if parts == [] then turns
    else if turns != [] && turns[|turns| - 1].isModel == isModel then
      turns[..|turns| - 1] + [Turn(isModel, turns[|turns| - 1].parts + parts)]
    else turns + [Turn(isModel, parts)]
  }

  function Built(history: seq<Message>, n: nat): seq<Turn>
    requires n <= |history|
  {
    if n == 0 then []
    else AddTurn(AddTurn(Built(history, n - 1), true, ModelParts(history[n - 1])), false, UserParts(history, n - 1))
  }

  function UserFirst(turns: seq<Turn>): seq<Turn> {
    if turns == [] || turns[0].isModel then [Turn(false, [TextPart(EARLIER)])] + turns else turns
  }

  function Contents(history: seq<Message>): seq<Turn> {
    UserFirst(Built(history, |history|))
  }

  function SystemText(history: seq<Message>, n: nat): string
    requires n <= |history|
  {
    if n == 0 then ""
    else
      var m, before := history[n - 1], SystemText(history, n - 1);
      if m.role == System && m.level < 0 && HasVisibleText(m.content) then
        before + (if before == "" then "" else "\n\n") + m.content
      else before
  }

  /** The system prompt of a whole history. */
  function SystemPrompt(history: seq<Message>): string {
    SystemText(history, |history|)
  }

  // ---- The program's loops ----

  /** The first result of every call id, as the program's map holds it after n messages. */
  ghost predicate Indexes(index: map<string, nat>, history: seq<Message>, n: nat)
    requires n <= |history|
  {
    forall id :: FirstBefore(history, id, n) == if id in index then Some(index[id]) else None
  }

  method IndexResults(history: seq<Message>) returns (index: map<string, nat>)
    ensures Indexes(index, history, |history|)
  {
    index := map[];
    for i := 0 to |history|
      invariant Indexes(index, history, i)
    {
      var m := history[i];
      if m.role == Tool && m.callId != "" && m.callId !in index {
        index := index[m.callId := i];
      }
    }
  }

  /** What `consumed` holds when the calls before call j of message i are done. */
  ghost predicate Consumes(consumed: set<nat>, history: seq<Message>, i: nat, j: nat)
    requires i < |history| && j <= |history[i].calls|
  {
    forall t: nat :: t in consumed <==>
      && t < |history| && FirstResult(history, history[t].callId) == Some(t)
      && if t <= i then AskedBy(history, history[t].callId, t) else Asked(history, history[t].callId, i, j)
  }

  lemma {:induction false} CallTakes(consumed: set<nat>, history: seq<Message>, i: nat, j: nat, answer: Option<nat>)
    requires i < |history| && history[i].role == Assistant && j < |history[i].calls|
    requires Consumes(consumed, history, i, j) && answer == AnswerOf(history, i, j)
    ensures Consumes(if answer.Some? then consumed + {answer.value} else consumed, history, i, j + 1)
  {
    var c := history[i].calls[j];
    var after := if answer.Some? then consumed + {answer.value} else consumed;
    forall t: nat
      ensures t in after <==>
                && t < |history| && FirstResult(history, history[t].callId) == Some(t)
                && if t <= i then AskedBy(history, history[t].callId, t) else Asked(history, history[t].callId, i, j + 1)
    {
      if t < |history| && FirstResult(history, history[t].callId) == Some(t) {
        hide FirstBefore, AskedBy;
        AskedOneMore(history, history[t].callId, i, j);
      }
    }
  }

  lemma {:induction false} AskedOneMore(history: seq<Message>, id: string, i: nat, j: nat)
    requires i < |history| && history[i].role == Assistant && j < |history[i].calls|
    ensures Asked(history, id, i, j + 1) == (Asked(history, id, i, j) || Asks(history[i].calls[j], id))
  {
    hide AskedBy;
  }

  lemma {:induction false} MessageTakes(consumed: set<nat>, history: seq<Message>, i: nat)
    requires i + 1 < |history|
    requires Consumes(consumed, history, i, if history[i].role == Assistant then |history[i].calls| else 0)
    ensures Consumes(consumed, history, i + 1, 0)
  {
    hide FirstResult;
    var j := if history[i].role == Assistant then |history[i].calls| else 0;
    forall id: string
      ensures Asked(history, id, i, j) == AskedBy(history, id, i + 1) == Asked(history, id, i + 1, 0)
    {
      AskedIsAskedBy(history, id, i);
    }
  }

  lemma {:induction false} AskedIsAskedBy(history: seq<Message>, id: string, i: nat)
    requires i < |history|
    ensures AskedBy(history, id, i + 1)
            == Asked(history, id, i, if history[i].role == Assistant then |history[i].calls| else 0)
    ensures i + 1 < |history| ==> Asked(history, id, i + 1, 0) == AskedBy(history, id, i + 1)
  {
  }

  lemma {:induction false} NothingTaken(history: seq<Message>)
    requires history != []
    ensures Consumes({}, history, 0, 0)
  {
    hide FirstBefore;
  }

  /** What one more call adds. */
  lemma {:induction false} NextCall(history: seq<Message>, i: nat, j: nat)
    requires i < |history| && history[i].role == Assistant && j < |history[i].calls|
    ensures var calls, c := history[i].calls, history[i].calls[j];
            && AnyNamed(calls, j + 1) == (AnyNamed(calls, j) || c.name != "")
            && CallParts(calls, j + 1) == CallParts(calls, j) + (if c.name == "" then [] else [SentCall(calls, j)])
            && ResponseParts(history, i, j + 1)
               == ResponseParts(history, i, j)
                  + (if c.name == "" then [] else [ResponsePart(c.id, c.name, ResultText(history, AnswerOf(history, i, j)))])
            && (c.name == "" ==> AnswerOf(history, i, j) == None)
  {
    hide SentCall, FirstBefore, Asked, ResultText;
  }

  lemma {:induction false} NoCalls(history: seq<Message>, i: nat)
    requires i < |history| && history[i].role == Assistant
    ensures CallParts(history[i].calls, 0) == [] && ResponseParts(history, i, 0) == [] && !AnyNamed(history[i].calls, 0)
  {
  }

  method AnswerCalls(history: seq<Message>, i: nat, index: map<string, nat>, before: set<nat>)
    returns (model: seq<Part>, responses: seq<Part>, consumed: set<nat>)
    requires i < |history| && history[i].role == Assistant
    requires Indexes(index, history, |history|) && Consumes(before, history, i, 0)
    ensures model == ModelParts(history[i]) && responses == UserParts(history, i)
    ensures Consumes(consumed, history, i, |history[i].calls|)
  {
    hide Consumes, Indexes, CallParts, ResponseParts, AnyNamed, AnySignature, AnswerOf, ResultText, TextParts, Taken;
    var m := history[i];
    var calls := m.calls;
    model := TextParts(m.content);
    responses := [];
    consumed := before;
    var anySignature := AnySignature(calls);
    var firstCallDone := false;
    ConcatNothing(model);
    NoCalls(history, i);
    for j := 0 to |calls|
      invariant model == TextParts(m.content) + CallParts(calls, j)
      invariant responses == ResponseParts(history, i, j)
      invariant firstCallDone == AnyNamed(calls, j)
      invariant Consumes(consumed, history, i, j)
    {
      var c := calls[j];
      NextCall(history, i, j);
      CallTakes(consumed, history, i, j, AnswerOf(history, i, j));
      if c.name != "" {
        var answered := IsAnswered(history, i, j, index, consumed);
        var signature := if c.signature != "" then c.signature
                         else if !anySignature && !firstCallDone then NO_SIGNATURE else "";
        firstCallDone := true;
        var part := CallPart(c.id, c.name, if c.args.Object? then c.args else Object("{}"), signature);
        ConcatAssociates(TextParts(m.content), CallParts(calls, j), [part]);
        model := model + [part];
        responses := responses + [ResponsePart(c.id, c.name, ResultText(history, answered))];
        if answered.Some? { consumed := consumed + {answered.value}; }
      } else {
        ConcatNothing(CallParts(calls, j));
        ConcatNothing(responses);
      }
    }
  }

  method IsAnswered(history: seq<Message>, i: nat, j: nat, index: map<string, nat>,
      consumed: set<nat>) returns (t: Option<nat>)
    requires i < |history| && history[i].role == Assistant && j < |history[i].calls| && history[i].calls[j].name != ""
    requires Indexes(index, history, |history|) && Consumes(consumed, history, i, j)
    ensures t == AnswerOf(history, i, j)
  {
    hide FirstBefore, Asked, AskedBy;
    var c := history[i].calls[j];
    assert FirstBefore(history, c.id, |history|) == if c.id in index then Some(index[c.id]) else None;
    if c.id != "" && c.id in index && index[c.id] > i && index[c.id] !in consumed {
      t := Some(index[c.id]);
    } else {
      t := None;
    }
  }

  lemma {:induction false} NothingBuilt(history: seq<Message>)
    ensures Built(history, 0) == [] && SystemText(history, 0) == ""
  {
  }

  /** What one more message does to what is built so far. */
  lemma {:induction false} MessageAdds(history: seq<Message>, i: nat)
    requires i < |history|
    ensures var m, turns, text := history[i], Built(history, i), SystemText(history, i);
            && Built(history, i + 1)
               == (match m.role
                   case System => if m.level < 0 then turns else AddTurn(turns, false, TextParts(m.content))
                   case User => AddTurn(turns, false, TextParts(m.content))
                   case Assistant => AddTurn(AddTurn(turns, true, ModelParts(m)), false, UserParts(history, i))
                   case Tool => if Taken(history, i) then turns else AddTurn(turns, false, TextParts("[Tool result] " + m.content))
                   case Other => turns)
            && SystemText(history, i + 1)
               == if m.role == System && m.level < 0 && HasVisibleText(m.content) then
                    text + (if text == "" then "" else "\n\n") + m.content
                  else text
  {
    hide HasVisibleText, Taken, ResponseParts, TextParts, CallParts;
    AddNothing(Built(history, i));
  }

  lemma {:induction false} AddNothing(turns: seq<Turn>)
    ensures AddTurn(turns, true, []) == turns && AddTurn(turns, false, []) == turns
  {
  }

  method BuildGeminiContents(history: seq<Message>) returns (systemText: string, contents: seq<Turn>)
    ensures systemText == SystemPrompt(history) && contents == Contents(history)
  {
    hide Consumes, FirstResult, AskedBy, HasVisibleText, Built, SystemText, ModelParts, UserParts, AddTurn, Taken,
        TextParts;
    systemText, contents := "", [];
    var index := IndexResults(history);
    var consumed: set<nat> := {};
    if history != [] { NothingTaken(history); }
    NothingBuilt(history);
    for i := 0 to |history|
      invariant systemText == SystemText(history, i) && contents == Built(history, i)
      invariant i < |history| ==> Consumes(consumed, history, i, 0)
    {
      var m := history[i];
      MessageAdds(history, i);
      match m.role {
        case System =>
          if m.level < 0 {
            if HasVisibleText(m.content) { systemText := systemText + (if systemText == "" then "" else "\n\n") + m.content; }
          } else {
            contents := AddTurn(contents, false, TextParts(m.content));
          }
        case User =>
          contents := AddTurn(contents, false, TextParts(m.content));
        case Assistant =>
          var model, responses, taken := AnswerCalls(history, i, index, consumed);
          consumed := taken;
          contents := AddTurn(contents, true, model);
          contents := AddTurn(contents, false, responses);
        case Tool =>
          TakenIfConsumed(consumed, history, i);
          if i !in consumed { contents := AddTurn(contents, false, TextParts("[Tool result] " + m.content)); }
        case Other =>
      }
      if i + 1 < |history| { MessageTakes(consumed, history, i); }
    }
    contents := UserFirst(contents);
  }

  lemma {:induction false} TakenIfConsumed(consumed: set<nat>, history: seq<Message>, i: nat)
    requires i < |history| && Consumes(consumed, history, i, 0)
    ensures i in consumed <==> Taken(history, i)
  {
    hide FirstBefore;
  }

  // ---- Turns alternate, and calls are answered at once ----

  datatype Head = Head(id: string, name: string)

  function CallHeads(parts: seq<Part>): seq<Head> {
    if parts == [] then []
    else
      var last := parts[|parts| - 1];
      CallHeads(parts[..|parts| - 1]) + if last.CallPart? then [Head(last.id, last.name)] else []
  }

  /** The parts answer exactly these calls, in order and before anything else, and hold no calls. */
  ghost predicate Answers(parts: seq<Part>, heads: seq<Head>) {
    && |heads| <= |parts|
    && (forall k :: 0 <= k < |heads| ==> parts[k].ResponsePart? && Head(parts[k].id, parts[k].name) == heads[k])
    && (forall k :: |heads| <= k < |parts| ==> parts[k].TextPart?)
  }

  ghost predicate HoldsNoResponse(parts: seq<Part>) {
    forall k :: 0 <= k < |parts| ==> !parts[k].ResponsePart?
  }

  function OpenCalls(turns: seq<Turn>): seq<Head> {
    if turns == [] then [] else CallHeads(turns[|turns| - 1].parts)
  }

  ghost predicate Fits(before: seq<Turn>, t: Turn) {
    && t.parts != []
    && (before != [] ==> before[|before| - 1].isModel != t.isModel)
    && if t.isModel then HoldsNoResponse(t.parts) else Answers(t.parts, OpenCalls(before))
  }

  ghost predicate WellFormed(turns: seq<Turn>) {
    turns != [] ==> WellFormed(turns[..|turns| - 1]) && Fits(turns[..|turns| - 1], turns[|turns| - 1])
  }

  /** Well formed, and no call is left open. */
  ghost predicate Settled(turns: seq<Turn>) {
    WellFormed(turns) && OpenCalls(turns) == []
  }

  lemma {:induction false} HeadsOfConcat(a: seq<Part>, b: seq<Part>)
    ensures CallHeads(a + b) == CallHeads(a) + CallHeads(b)
  {
    if b == [] {
      ConcatNothing(a);
      ConcatNothing(CallHeads(a));
    } else {
      SnocOfConcat(a, b);
      HeadsOfConcat(a, b[..|b| - 1]);
      var last := if b[|b| - 1].CallPart? then [Head(b[|b| - 1].id, b[|b| - 1].name)] else [];
      ConcatAssociates(CallHeads(a), CallHeads(b[..|b| - 1]), last);
    }
  }

  lemma {:induction false} NoHeads(parts: seq<Part>)
    requires forall k :: 0 <= k < |parts| ==> !parts[k].CallPart?
    ensures CallHeads(parts) == []
  {
    if parts != [] { NoHeads(parts[..|parts| - 1]); }
  }

  lemma {:induction false} LastReplaced(turns: seq<Turn>, t: Turn)
    ensures WellFormed(turns) && Fits(turns, t) ==> WellFormed(turns + [t])
    ensures OpenCalls(turns + [t]) == CallHeads(t.parts)
  {
    InitOfSnoc(turns, t);
    hide Fits, CallHeads;
  }

  lemma {:induction false} AnswersMore(parts: seq<Part>, heads: seq<Head>, texts: seq<Part>)
    requires Answers(parts, heads) && forall k :: 0 <= k < |texts| ==> texts[k].TextPart?
    ensures Answers(parts + texts, heads)
  {
  }

  lemma {:induction false} NoResponseInBoth(a: seq<Part>, b: seq<Part>)
    requires HoldsNoResponse(a) && HoldsNoResponse(b)
    ensures HoldsNoResponse(a + b)
  {
  }

  lemma {:induction false} AnswersHasNoCalls(parts: seq<Part>, heads: seq<Head>)
    requires Answers(parts, heads)
    ensures CallHeads(parts) == []
  {
    NoHeads(parts);
  }

  lemma {:induction false} TextsKeepSettled(turns: seq<Turn>, parts: seq<Part>)
    requires Settled(turns) && forall k :: 0 <= k < |parts| ==> parts[k].TextPart?
    ensures Settled(AddTurn(turns, false, parts))
  {
    hide CallHeads;
    if parts != [] {
      if turns != [] && !turns[|turns| - 1].isModel {
        var init, last := turns[..|turns| - 1], turns[|turns| - 1];
        AnswersMore(last.parts, OpenCalls(init), parts);
        AnswersHasNoCalls(last.parts + parts, OpenCalls(init));
        LastReplaced(init, Turn(false, last.parts + parts));
      } else {
        AnswersHasNoCalls(parts, []);
        LastReplaced(turns, Turn(false, parts));
      }
    }
  }

  lemma {:induction false} ModelPartsOpen(turns: seq<Turn>, parts: seq<Part>)
    requires Settled(turns) && HoldsNoResponse(parts)
    ensures WellFormed(AddTurn(turns, true, parts)) && OpenCalls(AddTurn(turns, true, parts)) == CallHeads(parts)
    ensures var after := AddTurn(turns, true, parts);
            CallHeads(parts) != [] ==> after != [] && after[|after| - 1].isModel
  {
    if parts != [] {
      hide CallHeads;
      if turns != [] && turns[|turns| - 1].isModel {
        var init, last := turns[..|turns| - 1], turns[|turns| - 1];
        NoResponseInBoth(last.parts, parts);
        HeadsOfConcat(last.parts, parts);
        NothingConcat(CallHeads(parts));
        LastReplaced(init, Turn(true, last.parts + parts));
      } else {
        LastReplaced(turns, Turn(true, parts));
      }
    }
  }

  lemma {:induction false} ResponsesClose(turns: seq<Turn>, parts: seq<Part>)
    requires WellFormed(turns) && Answers(parts, OpenCalls(turns)) && |parts| == |OpenCalls(turns)|
    requires OpenCalls(turns) != [] ==> turns != [] && turns[|turns| - 1].isModel
    ensures Settled(AddTurn(turns, false, parts))
  {
    hide CallHeads;
    if parts != [] {
      AnswersHasNoCalls(parts, OpenCalls(turns));
      LastReplaced(turns, Turn(false, parts));
    }
  }

  lemma {:induction false} OneMoreAnswer(parts: seq<Part>, heads: seq<Head>, part: Part)
    requires Answers(parts, heads) && |parts| == |heads| && part.ResponsePart?
    ensures Answers(parts + [part], heads + [Head(part.id, part.name)])
  {
  }

  /** The responses of a message answer its calls one by one. */
  lemma {:induction false} ResponsesAnswerCalls(history: seq<Message>, i: nat, j: nat)
    requires i < |history| && history[i].role == Assistant && j <= |history[i].calls|
    ensures Answers(ResponseParts(history, i, j), CallHeads(CallParts(history[i].calls, j)))
    ensures |ResponseParts(history, i, j)| == |CallHeads(CallParts(history[i].calls, j))|
    ensures HoldsNoResponse(CallParts(history[i].calls, j))
  {
    hide AnswerOf, SentCall, Answers, HoldsNoResponse, ResultText, CallParts, ResponseParts, CallHeads;
    if j == 0 {
      NoCalls(history, i);
      NothingAnswers();
    } else {
      ResponsesAnswerCalls(history, i, j - 1);
      NextCall(history, i, j - 1);
      var c := history[i].calls[j - 1];
      var responses, calls := ResponseParts(history, i, j - 1), CallParts(history[i].calls, j - 1);
      if c.name == "" {
        ConcatNothing(responses);
        ConcatNothing(calls);
      } else {
        var call := SentCall(history[i].calls, j - 1);
        OneMoreAnswer(responses, CallHeads(calls), ResponsePart(c.id, c.name, ResultText(history, AnswerOf(history, i, j - 1))));
        OneHead(calls, call);
        SentCallIs(history[i].calls, j - 1);
        OneNoResponse(call);
        NoResponseInBoth(calls, [call]);
      }
    }
  }

  lemma {:induction false} OneHead(parts: seq<Part>, call: Part)
    ensures CallHeads(parts + [call]) == CallHeads(parts) + if call.CallPart? then [Head(call.id, call.name)] else []
  {
    InitOfSnoc(parts, call);
  }

  lemma {:induction false} SentCallIs(calls: seq<Call>, j: nat)
    requires j < |calls|
    ensures SentCall(calls, j).CallPart? && SentCall(calls, j).id == calls[j].id && SentCall(calls, j).name == calls[j].name
  {
    hide SignatureOf;
  }

  lemma {:induction false} NothingAnswers()
    ensures Answers([], []) && HoldsNoResponse([]) && CallHeads([]) == []
  {
  }

  lemma {:induction false} OneNoResponse(part: Part)
    requires part.CallPart?
    ensures HoldsNoResponse([part])
  {
  }

  lemma {:induction false} MessageKeepsSettled(history: seq<Message>, i: nat, turns: seq<Turn>)
    requires i < |history| && Settled(turns)
    ensures Settled(AddTurn(AddTurn(turns, true, ModelParts(history[i])), false, UserParts(history, i)))
  {
    hide WellFormed, OpenCalls, AddTurn, Taken, ResponseParts, CallParts;
    var m := history[i];
    if m.role == Assistant {
      ResponsesAnswerCalls(history, i, |m.calls|);
      var model := ModelParts(m);
      NoHeads(TextParts(m.content));
      HeadsOfConcat(TextParts(m.content), CallParts(m.calls, |m.calls|));
      NothingConcat(CallHeads(CallParts(m.calls, |m.calls|)));
      NoResponseInBoth(TextParts(m.content), CallParts(m.calls, |m.calls|));
      ModelPartsOpen(turns, model);
      ResponsesClose(AddTurn(turns, true, model), UserParts(history, i));
    } else {
      AddNothing(turns);
      TextsKeepSettled(turns, UserParts(history, i));
    }
  }

  lemma {:induction false} BuiltIsSettled(history: seq<Message>, n: nat)
    requires n <= |history|
    ensures Settled(Built(history, n))
  {
    hide AddTurn, ModelParts, UserParts, Settled;
    if n == 0 {
      NothingIsSettled();
    } else {
      BuiltIsSettled(history, n - 1);
      MessageKeepsSettled(history, n - 1, Built(history, n - 1));
    }
  }

  lemma {:induction false} NothingIsSettled()
    ensures Settled([])
  {
  }

  lemma {:induction false} LeadKeepsWellFormed(lead: Turn, turns: seq<Turn>)
    requires WellFormed(turns) && !lead.isModel && lead.parts != [] && Answers(lead.parts, []) && (turns == [] || turns[0].isModel)
    ensures WellFormed([lead] + turns)
  {
    if turns == [] {
      ConcatNothing([lead]);
    } else {
      SnocOfConcat([lead], turns);
      LeadKeepsWellFormed(lead, turns[..|turns| - 1]);
      if |turns| > 1 { SnocOfConcat([lead], turns[..|turns| - 1]); }
      hide CallHeads;
    }
  }

  lemma {:induction false} WellFormedAt(turns: seq<Turn>, k: nat)
    requires WellFormed(turns) && k < |turns|
    ensures Fits(turns[..k], turns[k])
  {
    if k < |turns| - 1 {
      WellFormedAt(turns[..|turns| - 1], k);
      TakeTake(turns, k, |turns| - 1);
    }
  }

  lemma {:induction false} ContentsWellFormed(history: seq<Message>)
    ensures WellFormed(Contents(history)) && OpenCalls(Contents(history)) == []
    ensures Contents(history) != [] && !Contents(history)[0].isModel
  {
    hide Built, WellFormed;
    var turns := Built(history, |history|);
    BuiltIsSettled(history, |history|);
    var lead := Turn(false, [TextPart(EARLIER)]);
    if turns == [] || turns[0].isModel {
      LeadKeepsWellFormed(lead, turns);
      NoHeads(lead.parts);
      if turns == [] { ConcatNothing([lead]); } else { SnocOfConcat([lead], turns); }
    }
  }

  /** Turn k alternates with the one before it; its calls, if it is the model's, are answered by the next
      turn; it answers the calls of the turn before it, in order and before anything else, if it is the user's. */
  ghost predicate AnswersAt(turns: seq<Turn>, k: nat)
    requires k < |turns|
  {
    && turns[k].parts != []
    && (k > 0 ==> turns[k].isModel != turns[k - 1].isModel)
    && if turns[k].isModel then
         HoldsNoResponse(turns[k].parts) && (CallHeads(turns[k].parts) != [] ==> k + 1 < |turns|)
       else
         Answers(turns[k].parts, if k == 0 then [] else CallHeads(turns[k - 1].parts))
  }

  lemma {:induction false} TurnAnswers(turns: seq<Turn>, k: nat)
    requires WellFormed(turns) && OpenCalls(turns) == [] && k < |turns|
    ensures AnswersAt(turns, k)
  {
    hide WellFormed, CallHeads, Answers, HoldsNoResponse;
    WellFormedAt(turns, k);
    if k > 0 { assert turns[..k][k - 1] == turns[k - 1]; }
  }

  /** Every history yields turns that start with the user and alternate; a model turn with calls is followed
      by a user turn that begins with exactly their responses, in the same order and with the same names
      and ids; and there is no other response anywhere. */
  lemma {:induction false} CallsAreAnsweredAtOnce(history: seq<Message>)
    ensures var turns := Contents(history);
            && turns != [] && !turns[0].isModel
            && forall k :: 0 <= k < |turns| ==> AnswersAt(turns, k)
  {
    hide Contents, WellFormed, AnswersAt, OpenCalls;
    ContentsWellFormed(history);
    forall k | 0 <= k < |Contents(history)|
      ensures AnswersAt(Contents(history), k)
    {
      TurnAnswers(Contents(history), k);
    }
  }

  // ---- Nothing is lost, moved or said twice ----

  datatype Piece = Piece(isModel: bool, part: Part)

  function Tagged(isModel: bool, parts: seq<Part>): seq<Piece> {
    if parts == [] then []
    else Tagged(isModel, parts[..|parts| - 1]) + [Piece(isModel, parts[|parts| - 1])]
  }

  function Flat(turns: seq<Turn>): seq<Piece> {
    if turns == [] then []
    else Flat(turns[..|turns| - 1]) + Tagged(turns[|turns| - 1].isModel, turns[|turns| - 1].parts)
  }

  /** What the first n messages contribute, message by message. */
  function Pieces(history: seq<Message>, n: nat): seq<Piece>
    requires n <= |history|
  {
    if n == 0 then []
    else Pieces(history, n - 1) + (Tagged(true, ModelParts(history[n - 1])) + Tagged(false, UserParts(history, n - 1)))
  }

  /** What the messages contribute, behind the note that opens the turns when the user does not. */
  function Opened(history: seq<Message>): seq<Piece> {
    var pieces := Pieces(history, |history|);
    if pieces == [] || pieces[0].isModel then [Piece(false, TextPart(EARLIER))] + pieces else pieces
  }

  lemma {:induction false} TaggedConcat(isModel: bool, a: seq<Part>, b: seq<Part>)
    ensures Tagged(isModel, a + b) == Tagged(isModel, a) + Tagged(isModel, b)
  {
    if b == [] {
      ConcatNothing(a);
      ConcatNothing(Tagged(isModel, a));
    } else {
      SnocOfConcat(a, b);
      TaggedConcat(isModel, a, b[..|b| - 1]);
      ConcatAssociates(Tagged(isModel, a), Tagged(isModel, b[..|b| - 1]), [Piece(isModel, b[|b| - 1])]);
    }
  }

  lemma {:induction false} FlatSnoc(turns: seq<Turn>, t: Turn)
    ensures Flat(turns + [t]) == Flat(turns) + Tagged(t.isModel, t.parts)
  {
    hide Tagged;
    InitOfSnoc(turns, t);
  }

  lemma {:induction false} FlatAdd(turns: seq<Turn>, isModel: bool, parts: seq<Part>)
    ensures Flat(AddTurn(turns, isModel, parts)) == Flat(turns) + Tagged(isModel, parts)
  {
    if parts == [] {
      ConcatNothing(Flat(turns));
    } else if turns != [] && turns[|turns| - 1].isModel == isModel {
      hide Tagged;
      var init, last := turns[..|turns| - 1], turns[|turns| - 1];
      FlatSnoc(init, Turn(isModel, last.parts + parts));
      TaggedConcat(isModel, last.parts, parts);
      ConcatAssociates(Flat(init), Tagged(isModel, last.parts), Tagged(isModel, parts));
    } else {
      FlatSnoc(turns, Turn(isModel, parts));
    }
  }

  lemma {:induction false} BuiltIsFlat(history: seq<Message>, n: nat)
    requires n <= |history|
    ensures Flat(Built(history, n)) == Pieces(history, n)
  {
    hide Flat, Tagged, AddTurn, ModelParts, UserParts;
    if n == 0 {
      FlatNothing();
    } else {
      BuiltIsFlat(history, n - 1);
      var model, user := ModelParts(history[n - 1]), UserParts(history, n - 1);
      FlatAdd(Built(history, n - 1), true, model);
      FlatAdd(AddTurn(Built(history, n - 1), true, model), false, user);
      ConcatAssociates(Pieces(history, n - 1), Tagged(true, model), Tagged(false, user));
    }
  }

  lemma {:induction false} FlatNothing()
    ensures Flat([]) == []
  {
  }

  lemma {:induction false} FlatLead(lead: Turn, turns: seq<Turn>)
    ensures Flat([lead] + turns) == Tagged(lead.isModel, lead.parts) + Flat(turns)
  {
    hide Tagged;
    if turns == [] {
      ConcatNothing([lead]);
      NothingConcat([lead]);
      FlatSnoc([], lead);
      FlatNothing();
      NothingConcat(Tagged(lead.isModel, lead.parts));
      ConcatNothing(Tagged(lead.isModel, lead.parts));
    } else {
      var init, last := turns[..|turns| - 1], turns[|turns| - 1];
      SnocOfConcat([lead], turns);
      FlatLead(lead, init);
      ConcatAssociates(Tagged(lead.isModel, lead.parts), Flat(init), Tagged(last.isModel, last.parts));
    }
  }

  /** The turns, read in order, are what the messages contribute, in the order of the history; only the note
      that opens them when the user does not is added. */
  lemma {:induction false} NothingIsLostOrMoved(history: seq<Message>)
    ensures Flat(Contents(history)) == Opened(history)
  {
    hide Pieces;
    var turns := Built(history, |history|);
    hide Built;
    BuiltIsFlat(history, |history|);
    BuiltIsSettled(history, |history|);
    FirstPiece(turns);
    FlatLead(Turn(false, [TextPart(EARLIER)]), turns);
    assert Tagged(false, [TextPart(EARLIER)]) == [Piece(false, TextPart(EARLIER))];
  }

  lemma {:induction false} TaggedRole(isModel: bool, parts: seq<Part>)
    ensures |Tagged(isModel, parts)| == |parts|
    ensures forall k :: 0 <= k < |parts| ==> Tagged(isModel, parts)[k] == Piece(isModel, parts[k])
  {
    if parts != [] { TaggedRole(isModel, parts[..|parts| - 1]); }
  }

  lemma {:induction false} FirstPiece(turns: seq<Turn>)
    requires WellFormed(turns)
    ensures turns == [] <==> Flat(turns) == []
    ensures turns != [] ==> Flat(turns)[0].isModel == turns[0].isModel
  {
    if turns != [] {
      var init, last := turns[..|turns| - 1], turns[|turns| - 1];
      FirstPiece(init);
      TaggedRole(last.isModel, last.parts);
    }
  }

  ghost predicate Alternates(turns: seq<Turn>) {
    turns != [] ==>
      var init, last := turns[..|turns| - 1], turns[|turns| - 1];
      Alternates(init) && last.parts != [] && (init != [] ==> init[|init| - 1].isModel != last.isModel)
  }

  lemma {:induction false} LastPiece(turns: seq<Turn>)
    requires Alternates(turns) && turns != []
    ensures Flat(turns) != [] && Flat(turns)[|Flat(turns)| - 1].isModel == turns[|turns| - 1].isModel
  {
    TaggedRole(turns[|turns| - 1].isModel, turns[|turns| - 1].parts);
  }

  lemma {:induction false} AlternatesLast(turns: seq<Turn>)
    requires Alternates(turns) && turns != []
    ensures var init, last := turns[..|turns| - 1], turns[|turns| - 1];
            && Flat(turns) == Flat(init) + Tagged(last.isModel, last.parts)
            && |Tagged(last.isModel, last.parts)| == |last.parts| > 0
            && Alternates(init) && (init != [] ==> Flat(init) != [] && Flat(init)[|Flat(init)| - 1].isModel != last.isModel)
            && (init == [] ==> Flat(init) == [])
  {
    var init, last := turns[..|turns| - 1], turns[|turns| - 1];
    TaggedRole(last.isModel, last.parts);
    if init != [] { LastPiece(init); }
    hide Tagged;
  }

  lemma {:induction false} EndReaches(a: seq<Piece>, p: seq<Piece>, b: seq<Piece>, q: seq<Piece>)
    requires a + p == b + q && |a| > |b|
    ensures |q| > |p| && a[|a| - 1] == q[|a| - 1 - |b|]
  {
    assert |a + p| == |b + q|;
    assert a[|a| - 1] == (a + p)[|a| - 1];
  }

  /** If pieces end in some of one role, and in more of that role another way, they were not all of them. */
  lemma {:induction false} NotInside(a: seq<Piece>, p: seq<Piece>, b: seq<Piece>, q: seq<Piece>, role: bool)
    requires a + p == b + q && (forall k :: 0 <= k < |q| ==> q[k].isModel == role)
    requires a == [] || a[|a| - 1].isModel != role
    ensures |p| >= |q|
  {
    assert |a + p| == |b + q|;
    if |a| > |b| { EndReaches(a, p, b, q); }
  }

  lemma {:induction false} LastTurnNoLonger(a: seq<Turn>, b: seq<Turn>)
    requires Alternates(a) && Alternates(b) && a != [] && b != [] && Flat(a) == Flat(b)
    ensures a[|a| - 1].isModel == b[|b| - 1].isModel
    ensures |a[|a| - 1].parts| >= |b[|b| - 1].parts|
  {
    hide Flat, Tagged, Alternates;
    LastPiece(a);
    LastPiece(b);
    AlternatesLast(a);
    AlternatesLast(b);
    var p, q, role := a[|a| - 1].parts, b[|b| - 1].parts, a[|a| - 1].isModel;
    TaggedRole(role, q);
    NotInside(Flat(a[..|a| - 1]), Tagged(role, p), Flat(b[..|b| - 1]), Tagged(role, q), role);
  }

  /** There is only one way to group pieces into alternating turns. */
  lemma {:induction false} GroupingIsUnique(a: seq<Turn>, b: seq<Turn>)
    requires Alternates(a) && Alternates(b) && Flat(a) == Flat(b)
    ensures a == b
  {
    if a == [] {
      if b != [] { LastPiece(b); }
    } else if b == [] {
      LastPiece(a);
    } else {
      LastTurnNoLonger(a, b);
      LastTurnNoLonger(b, a);
      var role, p, q := a[|a| - 1].isModel, a[|a| - 1].parts, b[|b| - 1].parts;
      TaggedRole(role, p);
      TaggedRole(role, q);
      SameEnds(Flat(a[..|a| - 1]), Tagged(role, p), Flat(b[..|b| - 1]), Tagged(role, q));
      assert p == q by {
        assert forall k :: 0 <= k < |p| ==> Piece(role, p[k]) == Tagged(role, p)[k];
      }
      GroupingIsUnique(a[..|a| - 1], b[..|b| - 1]);
      SnocSplit(a);
      SnocSplit(b);
    }
  }

  lemma {:induction false} WellFormedAlternates(turns: seq<Turn>)
    requires WellFormed(turns)
    ensures Alternates(turns)
  {
    if turns != [] {
      hide Answers, HoldsNoResponse, CallHeads;
      WellFormedAlternates(turns[..|turns| - 1]);
    }
  }

  /** The turns of a history are the one way to group what its messages contribute into alternating turns. */
  lemma {:induction false} TurnsAreDetermined(history: seq<Message>, turns: seq<Turn>)
    ensures turns == Contents(history) <==> Alternates(turns) && Flat(turns) == Opened(history)
  {
    hide Contents, Pieces, Alternates, Flat, WellFormed;
    ContentsWellFormed(history);
    WellFormedAlternates(Contents(history));
    NothingIsLostOrMoved(history);
    if Alternates(turns) && Flat(turns) == Opened(history) { GroupingIsUnique(turns, Contents(history)); }
  }

  lemma {:induction false} SameEnds<T>(a: seq<T>, p: seq<T>, b: seq<T>, q: seq<T>)
    requires a + p == b + q && |p| == |q|
    ensures a == b && p == q
  {
    assert a == (a + p)[..|a|] && b == (b + q)[..|b|];
    assert p == (a + p)[|a|..] && q == (b + q)[|b|..];
  }

  // ---- Each call has its response and its part ----

  function NamedBefore(calls: seq<Call>, j: nat): nat
    requires j <= |calls|
  {
    if j == 0 then 0 else NamedBefore(calls, j - 1) + if calls[j - 1].name != "" then 1 else 0
  }

  /** Each call with a name has its own response: the text of the result that answers it, or the note that
      there is none yet. */
  lemma {:induction false} ResponseOfCall(history: seq<Message>, i: nat, j: nat, n: nat)
    requires i < |history| && history[i].role == Assistant && j < n <= |history[i].calls| && history[i].calls[j].name != ""
    ensures var c, k := history[i].calls[j], NamedBefore(history[i].calls, j);
            && |ResponseParts(history, i, n)| == NamedBefore(history[i].calls, n) > k
            && ResponseParts(history, i, n)[k] == ResponsePart(c.id, c.name, ResultText(history, AnswerOf(history, i, j)))
  {
    hide AnswerOf, ResultText;
    ResponseCount(history, i, n);
    ResponseCount(history, i, n - 1);
    ResponseCount(history, i, j);
    if j < n - 1 { ResponseOfCall(history, i, j, n - 1); }
  }

  lemma {:induction false} ResponseCount(history: seq<Message>, i: nat, n: nat)
    requires i < |history| && history[i].role == Assistant && n <= |history[i].calls|
    ensures |ResponseParts(history, i, n)| == NamedBefore(history[i].calls, n)
  {
    hide AnswerOf, ResultText;
    if n > 0 { ResponseCount(history, i, n - 1); }
  }

  lemma {:induction false} CallCount(calls: seq<Call>, n: nat)
    requires n <= |calls|
    ensures |CallParts(calls, n)| == NamedBefore(calls, n)
    ensures AnyNamed(calls, n) <==> NamedBefore(calls, n) > 0
  {
    hide SignatureOf;
    if n > 0 { CallCount(calls, n - 1); }
  }

  ghost predicate Unsigned(calls: seq<Call>) {
    forall i :: 0 <= i < |calls| ==> calls[i].signature == ""
  }

  lemma {:induction false} SignatureIs(calls: seq<Call>, j: nat)
    requires j < |calls|
    ensures SignatureOf(calls, j)
            == if calls[j].signature != "" then calls[j].signature
               else if NamedBefore(calls, j) == 0 && Unsigned(calls) then NO_SIGNATURE else ""
  {
    hide NamedBefore;
    CallCount(calls, j);
  }

  lemma {:induction false} CallPartsNext(calls: seq<Call>, n: nat)
    requires n < |calls|
    ensures CallParts(calls, n + 1) == CallParts(calls, n) + if calls[n].name == "" then [] else [SentCall(calls, n)]
    ensures NamedBefore(calls, n + 1) == NamedBefore(calls, n) + if calls[n].name == "" then 0 else 1
  {
    hide SentCall;
  }

  lemma {:induction false} PartAt(calls: seq<Call>, j: nat, n: nat)
    requires j < n <= |calls| && calls[j].name != ""
    ensures NamedBefore(calls, j) < |CallParts(calls, n)| && CallParts(calls, n)[NamedBefore(calls, j)] == SentCall(calls, j)
  {
    hide SentCall, AnyNamed, NamedBefore, CallParts;
    CallPartsNext(calls, n - 1);
    if j < n - 1 {
      PartAt(calls, j, n - 1);
    } else {
      CallCount(calls, j);
    }
  }

  /** Each call with a name has its own part, with its own signature; if no call of the message has one, the
      first carries the placeholder, and only the first. */
  lemma {:induction false} PartOfCall(calls: seq<Call>, j: nat)
    requires j < |calls| && calls[j].name != ""
    ensures var c, k := calls[j], NamedBefore(calls, j);
            && k < |CallParts(calls, |calls|)|
            && CallParts(calls, |calls|)[k]
               == CallPart(c.id, c.name, if c.args.Object? then c.args else Object("{}"),
                           if c.signature != "" then c.signature
                           else if k == 0 && Unsigned(calls) then NO_SIGNATURE
                           else "")
  {
    hide SignatureOf, Unsigned, CallParts, NamedBefore;
    PartAt(calls, j, |calls|);
    SignatureIs(calls, j);
  }

  // ---- The system prompt ----

  function Join(texts: seq<string>): string {
    if texts == [] then ""
    else if |texts| == 1 then texts[0]
    else Join(texts[..|texts| - 1]) + "\n\n" + texts[|texts| - 1]
  }

  /** The protected system messages that say anything. */
  function Instructions(history: seq<Message>, n: nat): (texts: seq<string>)
    requires n <= |history|
    ensures forall k :: 0 <= k < |texts| ==> texts[k] != ""
  {
    if n == 0 then []
    else
      var m := history[n - 1];
      Instructions(history, n - 1)
      + if m.role == System && m.level < 0 && HasVisibleText(m.content) then [m.content] else []
  }

  lemma {:induction false} JoinIsSomething(texts: seq<string>)
    requires texts != [] && forall k :: 0 <= k < |texts| ==> texts[k] != ""
    ensures Join(texts) != ""
  {
    if |texts| > 1 { JoinIsSomething(texts[..|texts| - 1]); }
  }

  lemma {:induction false} JoinSnoc(texts: seq<string>, text: string)
    ensures Join(texts + [text]) == if texts == [] then text else Join(texts) + "\n\n" + text
  {
    InitOfSnoc(texts, text);
  }

  /** The system prompt is exactly the visible protected system messages, a blank line between two. */
  lemma {:induction false} SystemTextIsJoined(history: seq<Message>, n: nat)
    requires n <= |history|
    ensures SystemText(history, n) == Join(Instructions(history, n))
  {
    hide HasVisibleText, Join;
    if n == 0 {
      JoinNothing();
    } else {
      SystemTextIsJoined(history, n - 1);
      var before, m := Instructions(history, n - 1), history[n - 1];
      if m.role == System && m.level < 0 && HasVisibleText(m.content) {
        JoinSnoc(before, m.content);
        if before == [] { JoinNothing(); } else { JoinIsSomething(before); }
      } else {
        ConcatNothing(before);
      }
    }
  }

  lemma {:induction false} JoinNothing()
    ensures Join([]) == ""
  {
  }

  // ---- What the turns say ----

  /** What one piece says, whose it is, and which call it makes or answers. */
  datatype Line = Line(isModel: bool, what: What)

  datatype What =
    | Says(text: string)
    | Calls(id: string, name: string, args: Args, signature: string)
    | Answers(id: string, name: string)

  function LineOf(p: Piece): Line {
    Line(p.isModel,
         match p.part
         case TextPart(text) => Says(text)
         case CallPart(id, name, args, signature) => Calls(id, name, args, signature)
         case ResponsePart(id, name, _) => What.Answers(id, name))
  }

  function Outline(pieces: seq<Piece>): (lines: seq<Line>)
    ensures |lines| == |pieces|
  {
    if pieces == [] then [] else Outline(pieces[..|pieces| - 1]) + [LineOf(pieces[|pieces| - 1])]
  }

  /** There is something to see besides blanks, tabs and line ends. */
  ghost predicate Visible(text: string) {
    exists k :: 0 <= k < |text| && text[k] != ' ' && text[k] != '\t' && text[k] != '\r' && text[k] != '\n'
  }

  /** A tool message is the answer to an earlier call: no tool message before it has its id, and a call with a
      name that came before it does. */
  ghost predicate AnswersEarlier(history: seq<Message>, t: nat)
    requires t < |history|
  {
    var id := history[t].callId;
    && history[t].role == Tool && id != ""
    && (forall k :: 0 <= k < t && history[k].role == Tool ==> history[k].callId != id)
    && exists i, j :: 0 <= i < t && history[i].role == Assistant && 0 <= j < |history[i].calls|
                      && history[i].calls[j].name != "" && history[i].calls[j].id == id
  }

  /** A call as it should be sent: arguments that are no object become an empty one; a signature is sent along; if
      the message has none at all, its first named call carries the placeholder. */
  function Sent(calls: seq<Call>, j: nat): What
    requires j < |calls|
  {
    var c := calls[j];
    Calls(c.id, c.name, if c.args.Object? then c.args else Object("{}"),
          if c.signature != "" then c.signature
          else if (forall k :: 0 <= k < |calls| ==> calls[k].signature == "")
                  && (forall k :: 0 <= k < j ==> calls[k].name == "") then
            "skip_thought_signature_validator"
          else "")
  }

  /** The first j calls that have a name, as calls or as answers. */
  function Named(calls: seq<Call>, j: nat, answered: bool): seq<Line>
    requires j <= |calls|
  {
    if j == 0 then []
    else
      var c := calls[j - 1];
      Named(calls, j - 1, answered) +
      if c.name == "" then []
      else [if answered then Line(false, What.Answers(c.id, c.name)) else Line(true, Sent(calls, j - 1))]
  }

  ghost function Words(isModel: bool, text: string): seq<Line> {
    if Visible(text) then [Line(isModel, Says(text))] else []
  }

  /** What one message of a history should come to. */
  ghost function LinesOf(history: seq<Message>, i: nat): seq<Line>
    requires i < |history|
  {
    var m := history[i];
    match m.role
    case System => if m.level < 0 then [] else Words(false, m.content)
    case User => Words(false, m.content)
    case Assistant => Words(true, m.content) + (Named(m.calls, |m.calls|, false) + Named(m.calls, |m.calls|, true))
    case Tool => if AnswersEarlier(history, i) then [] else [Line(false, Says("[Tool result] " + m.content))]
    case Other => []
  }

  ghost function AllLines(history: seq<Message>, n: nat): seq<Line>
    requires n <= |history|
  {
    if n == 0 then [] else AllLines(history, n - 1) + LinesOf(history, n - 1)
  }

  lemma {:induction false} FirstBeforeIs(history: seq<Message>, id: string, n: nat, t: nat)
    requires t < n <= |history| && IsResultOf(history[t], id)
    ensures FirstBefore(history, id, n) == Some(t) <==> forall k :: 0 <= k < t ==> !IsResultOf(history[k], id)
  {
    hide IsResultOf;
    if t < n - 1 {
      FirstBeforeIs(history, id, n - 1, t);
    } else {
      NoneBefore(history, id, t);
    }
  }

  lemma {:induction false} NoneBefore(history: seq<Message>, id: string, n: nat)
    requires n <= |history|
    ensures FirstBefore(history, id, n).None? <==> forall k :: 0 <= k < n ==> !IsResultOf(history[k], id)
  {
    hide IsResultOf;
    if n > 0 { NoneBefore(history, id, n - 1); }
  }

  lemma {:induction false} AskedInMeans(calls: seq<Call>, id: string, j: nat)
    requires j <= |calls|
    ensures AskedIn(calls, id, j) <==> exists k :: 0 <= k < j && calls[k].name != "" && calls[k].id == id
  {
    if j > 0 { AskedInMeans(calls, id, j - 1); }
  }

  lemma {:induction false} AskedByMeans(history: seq<Message>, id: string, n: nat)
    requires n <= |history|
    ensures AskedBy(history, id, n) <==>
              exists i, j :: 0 <= i < n && history[i].role == Assistant && 0 <= j < |history[i].calls|
                             && history[i].calls[j].name != "" && history[i].calls[j].id == id
  {
    hide AskedIn;
    if n > 0 {
      AskedByMeans(history, id, n - 1);
      AskedInMeans(history[n - 1].calls, id, |history[n - 1].calls|);
    }
  }

  lemma {:induction false} TakenMeans(history: seq<Message>, t: nat)
    requires t < |history|
    ensures history[t].role == Tool ==> (Taken(history, t) <==> AnswersEarlier(history, t))
  {
    hide FirstBefore, AskedBy;
    var id := history[t].callId;
    AskedByMeans(history, id, t);
    if IsResultOf(history[t], id) {
      FirstBeforeIs(history, id, |history|, t);
    } else if history[t].role == Tool {
      NoneBefore(history, id, |history|);
    }
  }

  lemma {:induction false} VisibleMeans(text: string)
    ensures Visible(text) <==> HasVisibleText(text)
  {
    if Visible(text) {
      var k :| 0 <= k < |text| && text[k] != ' ' && text[k] != '\t' && text[k] != '\r' && text[k] != '\n';
      assert !IsBlank(text[k]);
    }
    if HasVisibleText(text) {
      var k :| 0 <= k < |text| && !IsBlank(text[k]);
      assert text[k] != ' ' && text[k] != '\t' && text[k] != '\r' && text[k] != '\n';
    }
  }

  lemma {:induction false} OutlineConcat(a: seq<Piece>, b: seq<Piece>)
    ensures Outline(a + b) == Outline(a) + Outline(b)
  {
    hide LineOf;
    if b == [] {
      ConcatNothing(a);
      ConcatNothing(Outline(a));
    } else {
      SnocOfConcat(a, b);
      OutlineConcat(a, b[..|b| - 1]);
      ConcatAssociates(Outline(a), Outline(b[..|b| - 1]), [LineOf(b[|b| - 1])]);
    }
  }

  /** One more part at the end. */
  lemma {:induction false} OutlineMore(isModel: bool, parts: seq<Part>, part: Part)
    ensures Outline(Tagged(isModel, parts + [part])) == Outline(Tagged(isModel, parts)) + [LineOf(Piece(isModel, part))]
  {
    hide LineOf;
    InitOfSnoc(parts, part);
    InitOfSnoc(Tagged(isModel, parts), Piece(isModel, part));
  }

  lemma {:induction false} OutlineNothing(isModel: bool)
    ensures Outline([]) == [] && Tagged(isModel, []) == []
  {
  }

  lemma {:induction false} OutlineOfText(isModel: bool, text: string)
    ensures Outline(Tagged(isModel, TextParts(text))) == Words(isModel, text)
  {
    hide HasVisibleText, Visible, Outline, Tagged;
    VisibleMeans(text);
    OutlineNothing(isModel);
    OutlineMore(isModel, [], TextPart(text));
    NothingConcat([TextPart(text)]);
    NothingConcat([LineOf(Piece(isModel, TextPart(text)))]);
  }

  lemma {:induction false} SentCallSays(calls: seq<Call>, j: nat)
    requires j < |calls|
    ensures LineOf(Piece(true, SentCall(calls, j))) == Line(true, Sent(calls, j))
  {
    assert AnySignature(calls) <==> !(forall k :: 0 <= k < |calls| ==> calls[k].signature == "");
    assert AnyNamed(calls, j) <==> !(forall k :: 0 <= k < j ==> calls[k].name == "");
  }

  lemma {:induction false} OutlineOfCalls(history: seq<Message>, i: nat, j: nat)
    requires i < |history| && history[i].role == Assistant && j <= |history[i].calls|
    ensures Outline(Tagged(true, CallParts(history[i].calls, j))) == Named(history[i].calls, j, false)
    ensures Outline(Tagged(false, ResponseParts(history, i, j))) == Named(history[i].calls, j, true)
  {
    hide Outline, Tagged, CallParts, ResponseParts, SentCall, Sent, AnswerOf, ResultText;
    OutlineNothing(true);
    OutlineNothing(false);
    if j == 0 {
      NoCalls(history, i);
    } else {
      var calls, c := history[i].calls, history[i].calls[j - 1];
      OutlineOfCalls(history, i, j - 1);
      NextCall(history, i, j - 1);
      SentCallSays(calls, j - 1);
      if c.name == "" {
        ConcatNothing(CallParts(calls, j - 1));
        ConcatNothing(ResponseParts(history, i, j - 1));
        ConcatNothing(Named(calls, j - 1, false));
        ConcatNothing(Named(calls, j - 1, true));
      } else {
        OutlineMore(true, CallParts(calls, j - 1), SentCall(calls, j - 1));
        OutlineMore(false, ResponseParts(history, i, j - 1),
                    ResponsePart(c.id, c.name, ResultText(history, AnswerOf(history, i, j - 1))));
      }
    }
  }

  lemma {:induction false} OutlineOfMessage(history: seq<Message>, i: nat)
    requires i < |history|
    ensures Outline(Tagged(true, ModelParts(history[i])) + Tagged(false, UserParts(history, i))) == LinesOf(history, i)
  {
    hide Outline, Tagged, CallParts, ResponseParts, Named, TextParts, Words, Taken, AnswersEarlier;
    var m := history[i];
    OutlineConcat(Tagged(true, ModelParts(m)), Tagged(false, UserParts(history, i)));
    OutlineNothing(true);
    OutlineNothing(false);
    if m.role == Assistant {
      var texts, calls := TextParts(m.content), CallParts(m.calls, |m.calls|);
      TaggedConcat(true, texts, calls);
      OutlineConcat(Tagged(true, texts), Tagged(true, calls));
      OutlineOfText(true, m.content);
      OutlineOfCalls(history, i, |m.calls|);
      ConcatAssociates(Words(true, m.content), Named(m.calls, |m.calls|, false), Named(m.calls, |m.calls|, true));
    } else {
      NothingConcat(Outline(Tagged(false, UserParts(history, i))));
      OutlineOfText(false, m.content);
      if m.role == Tool {
        TakenMeans(history, i);
        OutlineOfText(false, "[Tool result] " + m.content);
        ResultIsSeen(m.content);
      }
    }
  }

  lemma {:induction false} ResultIsSeen(content: string)
    ensures Words(false, "[Tool result] " + content) == [Line(false, Says("[Tool result] " + content))]
  {
    assert ("[Tool result] " + content)[0] == '[';
  }

  lemma {:induction false} OutlineOfPieces(history: seq<Message>, n: nat)
    requires n <= |history|
    ensures Outline(Pieces(history, n)) == AllLines(history, n)
  {
    hide Outline, Tagged, ModelParts, UserParts, LinesOf;
    if n == 0 {
      OutlineNothing(true);
    } else {
      var model, user := Tagged(true, ModelParts(history[n - 1])), Tagged(false, UserParts(history, n - 1));
      OutlineOfPieces(history, n - 1);
      OutlineOfMessage(history, n - 1);
      OutlineConcat(Pieces(history, n - 1), model + user);
    }
  }

  lemma {:induction false} OutlineAt(pieces: seq<Piece>, k: nat)
    requires k < |pieces|
    ensures Outline(pieces)[k] == LineOf(pieces[k])
  {
    hide LineOf;
    if k < |pieces| - 1 { OutlineAt(pieces[..|pieces| - 1], k); }
  }

  /** The turns of every history, read in order, are exactly this: every visible word of the assistant as the
      model's, of the user and of unprotected system messages as the user's, every result that answers no call
      as the user's, and behind an assistant's words its named calls and then their answers; with one note in
      front if the first to say anything is not the user. */
  lemma {:induction false} WhatIsSent(history: seq<Message>)
    ensures var lines := AllLines(history, |history|);
            Outline(Flat(Contents(history)))
            == if lines == [] || lines[0].isModel then [Line(false, Says("(earlier conversation not shown)"))] + lines
               else lines
  {
    hide Outline, Pieces, Contents, AllLines;
    var pieces := Pieces(history, |history|);
    NothingIsLostOrMoved(history);
    OutlineOfPieces(history, |history|);
    if pieces != [] { OutlineAt(pieces, 0); }
    OutlineConcat([Piece(false, TextPart(EARLIER))], pieces);
    OutlineNote();
  }

  lemma {:induction false} OutlineNote()
    ensures Outline([Piece(false, TextPart(EARLIER))]) == [Line(false, Says("(earlier conversation not shown)"))]
  {
    var p := Piece(false, TextPart(EARLIER));
    assert [p][..0] == [];
  }

  // ---- Every result is told exactly once ----

  /** For each response to the first j calls of message i, the result it tells, if it tells one. */
  function AnsweredBy(history: seq<Message>, i: nat, j: nat): seq<Option<nat>>
    requires i < |history| && history[i].role == Assistant && j <= |history[i].calls|
  {
    if j == 0 then []
    else AnsweredBy(history, i, j - 1) + if history[i].calls[j - 1].name == "" then [] else [AnswerOf(history, i, j - 1)]
  }

  function Silent(n: nat): (s: seq<Option<nat>>)
    ensures |s| == n && forall k :: 0 <= k < n ==> s[k] == None
  {
    if n == 0 then [] else Silent(n - 1) + [None]
  }

  /** For each piece that message i contributes, the tool message whose result it tells, if it tells one: as the
      answer to a call, or as text. */
  function ToldBy(history: seq<Message>, i: nat): seq<Option<nat>>
    requires i < |history|
  {
    var m := history[i];
    if m.role == Assistant then Silent(|ModelParts(m)|) + AnsweredBy(history, i, |m.calls|)
    else if m.role == Tool && !Taken(history, i) then [Some(i)]
    else Silent(|UserParts(history, i)|)
  }

  function Told(history: seq<Message>, n: nat): seq<Option<nat>>
    requires n <= |history|
  {
    if n == 0 then [] else Told(history, n - 1) + ToldBy(history, n - 1)
  }

  /** For each piece of the turns, the tool message whose result it tells. */
  function Origins(history: seq<Message>): seq<Option<nat>> {
    var told := Told(history, |history|);
    if |Opened(history)| == |told| then told else [None] + told
  }

  /** The piece tells this message's result, or no result at all. */
  ghost predicate Tells(history: seq<Message>, p: Piece, from: Option<nat>) {
    match from
    case Some(t) =>
      && t < |history| && history[t].role == Tool && !p.isModel
      && (|| p.part == TextPart("[Tool result] " + history[t].content)
          || (p.part.ResponsePart? && p.part.id == history[t].callId && p.part.result == history[t].content))
    case None => p.part.ResponsePart? ==> p.part.result == PENDING_RESULT
  }

  ghost predicate AllTell(history: seq<Message>, pieces: seq<Piece>, from: seq<Option<nat>>) {
    |pieces| == |from| && forall k :: 0 <= k < |pieces| ==> Tells(history, pieces[k], from[k])
  }

  lemma {:induction false} TellConcat(history: seq<Message>, a: seq<Piece>, b: seq<Piece>, from: seq<Option<nat>>,
      more: seq<Option<nat>>)
    requires AllTell(history, a, from) && AllTell(history, b, more)
    ensures AllTell(history, a + b, from + more)
  {
    hide Tells;
  }

  lemma {:induction false} SilentTell(history: seq<Message>, isModel: bool, parts: seq<Part>)
    requires HoldsNoResponse(parts)
    ensures AllTell(history, Tagged(isModel, parts), Silent(|parts|))
  {
    TaggedRole(isModel, parts);
    hide Tagged, Silent;
  }

  lemma {:induction false} ResponsesTell(history: seq<Message>, i: nat, j: nat)
    requires i < |history| && history[i].role == Assistant && j <= |history[i].calls|
    ensures AllTell(history, Tagged(false, ResponseParts(history, i, j)), AnsweredBy(history, i, j))
  {
    hide AnswerOf, AllTell, Tagged;
    if j == 0 {
      NothingTells(history);
    } else {
      ResponsesTell(history, i, j - 1);
      var before, told := ResponseParts(history, i, j - 1), AnsweredBy(history, i, j - 1);
      if history[i].calls[j - 1].name == "" {
        ConcatNothing(before);
        ConcatNothing(told);
      } else {
        var part := ResponseParts(history, i, j)[|before|];
        ResponseTells(history, i, j - 1, part);
        TaggedConcat(false, before, [part]);
        TellConcat(history, Tagged(false, before), Tagged(false, [part]), told, [AnswerOf(history, i, j - 1)]);
      }
    }
  }

  lemma {:induction false} NothingTells(history: seq<Message>)
    ensures AllTell(history, [], []) && Tagged(false, []) == []
  {
    hide Tells;
  }

  lemma {:induction false} ResponseTells(history: seq<Message>, i: nat, j: nat, part: Part)
    requires i < |history| && history[i].role == Assistant && j < |history[i].calls|
    requires part == ResponsePart(history[i].calls[j].id, history[i].calls[j].name, ResultText(history, AnswerOf(history, i, j)))
    ensures AllTell(history, Tagged(false, [part]), [AnswerOf(history, i, j)])
  {
    TaggedRole(false, [part]);
    hide Tagged, FirstBefore, Asked;
  }

  lemma {:induction false} MessageTells(history: seq<Message>, i: nat)
    requires i < |history|
    ensures AllTell(history, Tagged(true, ModelParts(history[i])) + Tagged(false, UserParts(history, i)), ToldBy(history, i))
  {
    hide AllTell, Tagged, Taken, Silent, CallParts, ResponseParts, AnsweredBy, HasVisibleText;
    var m := history[i];
    if m.role == Assistant {
      ModelHoldsNoResponse(m);
      SilentTell(history, true, ModelParts(m));
      ResponsesTell(history, i, |m.calls|);
      TellConcat(history, Tagged(true, ModelParts(m)), Tagged(false, UserParts(history, i)),
                 Silent(|ModelParts(m)|), AnsweredBy(history, i, |m.calls|));
    } else {
      TaggedNothing(true);
      NothingConcat(Tagged(false, UserParts(history, i)));
      if m.role == Tool && !Taken(history, i) {
        TextTells(history, i);
      } else {
        SilentTell(history, false, UserParts(history, i));
      }
    }
  }

  lemma {:induction false} ModelHoldsNoResponse(m: Message)
    ensures HoldsNoResponse(ModelParts(m))
  {
    if m.role == Assistant { CallsHoldNoResponse(m.calls, |m.calls|); }
    hide CallParts;
  }

  lemma {:induction false} CallsHoldNoResponse(calls: seq<Call>, j: nat)
    requires j <= |calls|
    ensures HoldsNoResponse(CallParts(calls, j))
  {
    hide SignatureOf;
    if j > 0 { CallsHoldNoResponse(calls, j - 1); }
  }

  lemma {:induction false} TaggedNothing(isModel: bool)
    ensures Tagged(isModel, []) == []
  {
  }

  /** A tool message that answers no call is text of its own, even when its content is blank. */
  lemma {:induction false} UntakenIsText(history: seq<Message>, i: nat)
    requires i < |history| && history[i].role == Tool
    ensures UserParts(history, i) == if Taken(history, i) then [] else [TextPart("[Tool result] " + history[i].content)]
  {
    hide Taken;
    assert !IsBlank(("[Tool result] " + history[i].content)[0]);
  }

  lemma {:induction false} TextTells(history: seq<Message>, i: nat)
    requires i < |history| && history[i].role == Tool && !Taken(history, i)
    ensures AllTell(history, Tagged(false, UserParts(history, i)), [Some(i)])
  {
    hide Taken, UserParts;
    UntakenIsText(history, i);
    TaggedRole(false, UserParts(history, i));
    hide Tagged;
  }

  lemma {:induction false} PiecesTell(history: seq<Message>, n: nat)
    requires n <= |history|
    ensures AllTell(history, Pieces(history, n), Told(history, n))
  {
    hide AllTell, Tagged, ToldBy, ModelParts, UserParts;
    if n == 0 {
      NothingTells(history);
    } else {
      PiecesTell(history, n - 1);
      MessageTells(history, n - 1);
      TellConcat(history, Pieces(history, n - 1),
                 Tagged(true, ModelParts(history[n - 1])) + Tagged(false, UserParts(history, n - 1)),
                 Told(history, n - 1), ToldBy(history, n - 1));
    }
  }

  function Count(s: seq<Option<nat>>, t: nat): nat {
    if s == [] then 0 else Count(s[..|s| - 1], t) + if s[|s| - 1] == Some(t) then 1 else 0
  }

  lemma {:induction false} CountConcat(a: seq<Option<nat>>, b: seq<Option<nat>>, t: nat)
    ensures Count(a + b, t) == Count(a, t) + Count(b, t)
  {
    if b == [] {
      ConcatNothing(a);
    } else {
      SnocOfConcat(a, b);
      CountConcat(a, b[..|b| - 1], t);
    }
  }

  lemma {:induction false} CountSilent(n: nat, t: nat)
    ensures Count(Silent(n), t) == 0
  {
    if n > 0 {
      InitOfSnoc(Silent(n - 1), None);
      CountSilent(n - 1, t);
    }
  }

  lemma {:induction false} CountOne(x: Option<nat>, t: nat)
    ensures Count([x], t) == (if x == Some(t) then 1 else 0) && Count([], t) == 0
  {
    assert [x][..0] == [];
  }

  /** What a call is answered by, in terms of the result. */
  lemma {:induction false} AnswersExactly(history: seq<Message>, i: nat, j: nat, t: nat)
    requires i < |history| && history[i].role == Assistant && j < |history[i].calls| && t < |history|
    ensures AnswerOf(history, i, j) == Some(t) <==>
              && t > i && FirstResult(history, history[t].callId) == Some(t)
              && Asks(history[i].calls[j], history[t].callId) && !Asked(history, history[t].callId, i, j)
  {
    hide FirstBefore, Asked;
    var c := history[i].calls[j];
    assert FirstBefore(history, c.id, |history|) == Some(t) ==> history[t].callId == c.id;
  }

  lemma {:induction false} CountNext(history: seq<Message>, i: nat, j: nat, t: nat)
    requires i < |history| && history[i].role == Assistant && j < |history[i].calls|
    ensures Count(AnsweredBy(history, i, j + 1), t)
            == Count(AnsweredBy(history, i, j), t) + if AnswerOf(history, i, j) == Some(t) then 1 else 0
  {
    hide FirstBefore, Asked, Count;
    var before, answer := AnsweredBy(history, i, j), AnswerOf(history, i, j);
    CountConcat(before, [answer], t);
    ConcatNothing(before);
    CountOne(answer, t);
  }

  lemma {:induction false} NothingCounted(history: seq<Message>, i: nat, t: nat)
    requires i < |history| && history[i].role == Assistant
    ensures Count(AnsweredBy(history, i, 0), t) == 0
  {
  }

  lemma {:induction false} CountAnswered(history: seq<Message>, i: nat, j: nat, t: nat)
    requires i < |history| && history[i].role == Assistant && j <= |history[i].calls| && t < |history|
    ensures var id := history[t].callId;
            Count(AnsweredBy(history, i, j), t)
            == if t > i && FirstResult(history, id) == Some(t) && Asked(history, id, i, j) && !AskedBy(history, id, i) then 1 else 0
  {
    hide FirstResult, AskedBy, AskedIn, AnswerOf, Count, AnsweredBy;
    var id := history[t].callId;
    if j == 0 {
      NothingCounted(history, i, t);
      NothingAsked(history, id, i);
    } else {
      CountAnswered(history, i, j - 1, t);
      CountNext(history, i, j - 1, t);
      AnswersExactly(history, i, j - 1, t);
      AskedOneMore(history, id, i, j - 1);
      AskedBefore(history, id, i, j - 1);
      hide Asked;
    }
  }

  lemma {:induction false} NothingAsked(history: seq<Message>, id: string, i: nat)
    requires i < |history|
    ensures Asked(history, id, i, 0) == AskedBy(history, id, i)
  {
    hide AskedBy;
  }

  lemma {:induction false} AskedBefore(history: seq<Message>, id: string, i: nat, j: nat)
    requires i < |history| && j <= |history[i].calls|
    ensures AskedBy(history, id, i) ==> Asked(history, id, i, j)
  {
    hide AskedBy;
  }

  /** How often the first n messages tell of message t. */
  function Expected(history: seq<Message>, t: nat, n: nat): nat
    requires t < |history| && n <= |history|
  {
    if history[t].role != Tool then 0
    else if n > t then 1
    else if FirstResult(history, history[t].callId) == Some(t) && AskedBy(history, history[t].callId, n) then 1
    else 0
  }

  lemma {:induction false} FirstIsATool(history: seq<Message>, id: string)
    ensures var t := FirstResult(history, id); t.Some? ==> history[t.value].role == Tool
  {
    hide FirstBefore;
  }

  lemma {:induction false} AssistantTells(history: seq<Message>, i: nat, t: nat)
    requires i < |history| && t < |history| && history[i].role == Assistant
    ensures Count(ToldBy(history, i), t) == Count(AnsweredBy(history, i, |history[i].calls|), t)
  {
    hide ModelParts, Silent, AnsweredBy, Count;
    var m := history[i];
    CountSilent(|ModelParts(m)|, t);
    CountConcat(Silent(|ModelParts(m)|), AnsweredBy(history, i, |m.calls|), t);
  }

  lemma {:induction false} OtherTells(history: seq<Message>, i: nat, t: nat)
    requires i < |history| && t < |history| && history[i].role != Assistant
    ensures Count(ToldBy(history, i), t) == if i == t && history[i].role == Tool && !Taken(history, i) then 1 else 0
  {
    hide UserParts, Silent, Taken, Count;
    CountSilent(|UserParts(history, i)|, t);
    CountOne(Some(i), t);
  }

  lemma {:induction false} ExpectedNext(history: seq<Message>, i: nat, t: nat)
    requires i < |history| && t < |history|
    ensures Expected(history, t, i + 1) == Expected(history, t, i) + Count(ToldBy(history, i), t)
  {
    hide FirstBefore, AskedBy, Asked, ToldBy, AnsweredBy, Count;
    var m, id := history[i], history[t].callId;
    FirstIsATool(history, id);
    AskedIsAskedBy(history, id, i);
    if m.role == Assistant {
      AssistantTells(history, i, t);
      CountAnswered(history, i, |m.calls|, t);
      AskedBefore(history, id, i, |m.calls|);
    } else {
      OtherTells(history, i, t);
      NothingAsked(history, id, i);
    }
  }

  lemma {:induction false} NothingExpected(history: seq<Message>, t: nat)
    requires t < |history|
    ensures Expected(history, t, 0) == 0 && Count([], t) == 0
  {
    hide FirstResult;
  }

  lemma {:induction false} CountTold(history: seq<Message>, n: nat, t: nat)
    requires n <= |history| && t < |history|
    ensures Count(Told(history, n), t) == Expected(history, t, n)
  {
    hide Expected, ToldBy, Count;
    if n == 0 {
      NothingExpected(history, t);
    } else {
      CountTold(history, n - 1, t);
      ExpectedNext(history, n - 1, t);
      CountConcat(Told(history, n - 1), ToldBy(history, n - 1), t);
    }
  }

  /** Of all that is in the turns, exactly one piece tells the result of a tool message, whether it comes in
      time, late, twice or for a call that is gone: as the response to a call with its id, or as text; and a
      response that tells no result is the note that there is none yet. */
  lemma {:induction false} EveryResultIsToldOnce(history: seq<Message>, t: nat)
    requires t < |history|
    ensures AllTell(history, Flat(Contents(history)), Origins(history))
    ensures Count(Origins(history), t) == if history[t].role == Tool then 1 else 0
  {
    hide Pieces, Contents, Told, AllTell, Count, FirstResult, AskedBy;
    NothingIsLostOrMoved(history);
    PiecesTell(history, |history|);
    CountTold(history, |history|, t);
    var pieces, told := Pieces(history, |history|), Told(history, |history|);
    SameLength(history, pieces, told);
    if |Opened(history)| != |told| {
      LeadTells(history);
      TellConcat(history, [Piece(false, TextPart(EARLIER))], pieces, [None], told);
      CountConcat([None], told, t);
      CountOne(None, t);
    }
  }

  lemma {:induction false} SameLength(history: seq<Message>, pieces: seq<Piece>, told: seq<Option<nat>>)
    requires AllTell(history, pieces, told)
    ensures |pieces| == |told|
  {
    hide Tells;
  }

  lemma {:induction false} LeadTells(history: seq<Message>)
    ensures AllTell(history, [Piece(false, TextPart(EARLIER))], [None])
  {
  }
}
