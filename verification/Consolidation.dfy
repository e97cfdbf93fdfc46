/** Squashing old messages into summaries, level by level (source/sidetrack.cpp).  The model that writes the
    summaries is an oracle that may fail at any level. */
module Consolidation {
  import opened Options
  import opened Sequences

  datatype Role = System | User | Assistant | Tool

  /** `covers` says which messages of the original conversation this one stands for. */
  datatype Message = Message(role: Role, level: int, content: string, covers: seq<nat>)

  /** The summary the model writes for a level, if it completes one that is not empty. */
  type Summarizer = nat -> Option<string>

  // ---- Buckets ----

  function Protected(history: seq<Message>): seq<Message> {
    if history == [] then []
    else Protected(history[..|history| - 1]) + if history[|history| - 1].level < 0 then [history[|history| - 1]] else []
  }

  function Visible(history: seq<Message>): seq<Message> {
    if history == [] then []
    else Visible(history[..|history| - 1]) + if history[|history| - 1].level < 0 then [] else [history[|history| - 1]]
  }

  function Bucket(history: seq<Message>, level: nat): seq<Message> {
    if history == [] then []
    else Bucket(history[..|history| - 1], level) + if history[|history| - 1].level == level then [history[|history| - 1]] else []
  }

  /** One more than the highest level in use. */
  function Levels(history: seq<Message>): nat {
    if history == [] then 0
    else
      var before, level := Levels(history[..|history| - 1]), history[|history| - 1].level;
      if level >= before then level + 1 else before
  }

  function Buckets(history: seq<Message>, n: nat): (levels: seq<seq<Message>>)
    ensures |levels| == n
  {
    if n == 0 then [] else Buckets(history, n - 1) + [Bucket(history, n - 1)]
  }

  /** Highest level first. */
  function Down(levels: seq<seq<Message>>): seq<Message> {
    if levels == [] then [] else levels[|levels| - 1] + Down(levels[..|levels| - 1])
  }

  // ---- Squashing ----

  /** The longest start of the first n messages that ends with a reply. */
  function ToLastReply(messages: seq<Message>, n: nat): (k: nat)
    requires n <= |messages|
    ensures k <= n
  {
    if n > 0 && messages[n - 1].role != Assistant then ToLastReply(messages, n - 1) else n
  }

  /** How many messages of a level are squashed, if any. */
  function SquashCount(messages: seq<Message>, level: nat, keep: nat, trigger: nat): (n: Option<nat>)
    ensures n.Some? ==> n.value <= |messages| && n.value >= trigger
  {
    if |messages| <= keep || |messages| - keep < trigger then None
    else
      var n := if level == 0 then ToLastReply(messages, |messages| - keep) else |messages| - keep;
      if n < trigger then None else Some(n)
  }

  function Cover(messages: seq<Message>): seq<nat> {
    if messages == [] then [] else Cover(messages[..|messages| - 1]) + messages[|messages| - 1].covers
  }

  function Summary(messages: seq<Message>, level: nat, text: string): Message {
    Message(System, level, "Summary of previous context: " + text, Cover(messages))
  }

  function SquashLevel(levels: seq<seq<Message>>, level: nat, keep: nat, trigger: nat,
      llm: Summarizer): (after: seq<seq<Message>>)
    requires level + 1 < |levels|
    ensures |after| == |levels|
  {
    var messages := levels[level];
    var n := SquashCount(messages, level, keep, trigger);
    if n.None? || llm(level).None? || llm(level).value == "" then levels
    else
      levels[level := messages[n.value..]]
      [level + 1 := levels[level + 1] + [Summary(messages[..n.value], level + 1, llm(level).value)]]
  }

  /** The first n levels squashed, from the newest messages up. */
  function Squashed(levels: seq<seq<Message>>, n: nat, keep: nat, trigger: nat,
      llm: Summarizer): (after: seq<seq<Message>>)
    requires n < |levels|
    ensures |after| == |levels|
  {
    if n == 0 then levels else SquashLevel(Squashed(levels, n - 1, keep, trigger, llm), n - 1, keep, trigger, llm)
  }

  /** One pass; there is an empty level on top to promote into. */
  function Pass(history: seq<Message>, keep: nat, trigger: nat, llm: Summarizer): seq<Message> {
    var top := Levels(history);
    Protected(history) + Down(Squashed(Buckets(history, top + 1), top, keep, trigger, llm))
  }

  // ---- The program's loops ----

  /** The history the reply thread pushes onto while a pass works on a copy of it.  A pass holds the lock only
      when it copies and when it writes back; what it computes in between depends on its copy alone. */
  class Chat {
    var history: seq<Message>
    var working: Option<seq<Message>>

    ghost predicate At(s: Story)
      reads this
    {
      history == s.history && working == s.copy
    }

    constructor ()
      ensures At(Story([], 0, [], None))
    {
      history, working := [], None;
    }

    method Push(ghost s: Story, m: Message)
      requires At(s)
      modifies this
      ensures m.level == 0 && m.covers == [s.said] ==> At(Happen(s, Said(m.role, m.content)))
      ensures m.level == -1 && m.covers == [] && m.role == System ==> At(Happen(s, Guarded(m.content)))
    {
      history := history + [m];
    }

    method BeginPass(ghost s: Story)
      requires At(s)
      modifies this
      ensures At(Happen(s, Copied))
    {
      working := Some(history);
    }

    method FinishPass(ghost s: Story, keep: nat, trigger: nat, llm: Summarizer)
      requires At(s)
      modifies this
      ensures At(Happen(s, WrittenBack(keep, trigger, llm)))
    {
      hide Pass;
      if working.Some? {
        history := Consolidate(working.value, keep, trigger, llm);
        working := None;
      }
    }
  }

  method Consolidate(working: seq<Message>, keep: nat, trigger: nat,
      llm: Summarizer) returns (consolidated: seq<Message>)
    ensures consolidated == Pass(working, keep, trigger, llm)
  {
    hide Squashed, Down;
    var guarded, levels := SortIntoLevels(working);
    levels := levels + [[]];
    TopIsEmpty(working, levels);
    ghost var sorted := levels;
    NothingSquashed(sorted, keep, trigger, llm);
    for level := 0 to |levels| - 1
      invariant levels == Squashed(sorted, level, keep, trigger, llm)
    {
      SquashedNext(sorted, level, keep, trigger, llm);
      levels := SquashOne(levels, level, keep, trigger, llm);
    }
    var flat := FlattenDown(levels);
    consolidated := guarded + flat;
  }

  method SortIntoLevels(history: seq<Message>) returns (guarded: seq<Message>, levels: seq<seq<Message>>)
    ensures guarded == Protected(history)
    ensures |levels| == Levels(history) && forall l :: 0 <= l < |levels| ==> levels[l] == Bucket(history, l)
  {
    guarded, levels := [], [];
    for i := 0 to |history|
      invariant guarded == Protected(history[..i])
      invariant |levels| == Levels(history[..i])
      invariant forall l :: 0 <= l < |levels| ==> levels[l] == Bucket(history[..i], l)
    {
      var m := history[i];
      assert history[..i + 1][..i] == history[..i];
      if m.level < 0 {
        guarded := guarded + [m];
      } else {
        ghost var before := levels;
        while |levels| <= m.level
          invariant |before| <= |levels| && (|levels| > |before| ==> |levels| <= m.level + 1)
          invariant forall l :: 0 <= l < |levels| ==> levels[l] == if l < |before| then before[l] else []
          decreases m.level - |levels|
        {
          levels := levels + [[]];
        }
        forall l: nat | |before| <= l ensures Bucket(history[..i], l) == [] { AboveTop(history[..i], l); }
        levels := levels[m.level := levels[m.level] + [m]];
      }
    }
    assert history[..|history|] == history;
  }

  lemma {:induction false} AboveTop(history: seq<Message>, level: nat)
    requires level >= Levels(history)
    ensures Bucket(history, level) == []
  {
    if history != [] { AboveTop(history[..|history| - 1], level); }
  }

  lemma {:induction false} BucketsAt(history: seq<Message>, n: nat, level: nat)
    requires level < n
    ensures Buckets(history, n)[level] == Bucket(history, level)
  {
    hide Bucket;
    if level < n - 1 { BucketsAt(history, n - 1, level); }
  }

  lemma {:induction false} TopIsEmpty(history: seq<Message>, levels: seq<seq<Message>>)
    requires |levels| == Levels(history) + 1 && levels[|levels| - 1] == []
    requires forall l :: 0 <= l < |levels| - 1 ==> levels[l] == Bucket(history, l)
    ensures levels == Buckets(history, |levels|)
  {
    hide Bucket, Buckets, Levels;
    AboveTop(history, |levels| - 1);
    forall l | 0 <= l < |levels| ensures levels[l] == Buckets(history, |levels|)[l] { BucketsAt(history, |levels|, l); }
  }

  lemma {:induction false} NothingSquashed(levels: seq<seq<Message>>, keep: nat, trigger: nat, llm: Summarizer)
    requires levels != []
    ensures Squashed(levels, 0, keep, trigger, llm) == levels
  {
  }

  lemma {:induction false} SquashedNext(levels: seq<seq<Message>>, n: nat, keep: nat, trigger: nat, llm: Summarizer)
    requires n + 1 < |levels|
    ensures Squashed(levels, n + 1, keep, trigger, llm)
            == SquashLevel(Squashed(levels, n, keep, trigger, llm), n, keep, trigger, llm)
  {
  }

  method SquashOne(levels: seq<seq<Message>>, level: nat, keep: nat, trigger: nat,
      llm: Summarizer) returns (after: seq<seq<Message>>)
    requires level + 1 < |levels|
    ensures after == SquashLevel(levels, level, keep, trigger, llm)
  {
    after := levels;
    var messages := levels[level];
    if |messages| <= keep { return; }
    var overflow := |messages| - keep;
    if overflow < trigger { return; }
    if level == 0 {
      ghost var most := overflow;
      while overflow > 0 && messages[overflow - 1].role != Assistant
        invariant 0 <= overflow <= most && ToLastReply(messages, overflow) == ToLastReply(messages, most)
      {
        overflow := overflow - 1;
      }
      if overflow < trigger { return; }
    }
    var summary := llm(level);
    if summary.Some? && summary.value != "" {
      after := after[level := messages[overflow..]];
      after := after[level + 1 := levels[level + 1] + [Summary(messages[..overflow], level + 1, summary.value)]];
    }
  }

  method FlattenDown(levels: seq<seq<Message>>) returns (flat: seq<Message>)
    ensures flat == Down(levels)
  {
    flat := [];
    var level := |levels|;
    NothingConcat(Down(levels));
    assert levels[..level] == levels;
    while level > 0
      invariant level <= |levels| && flat + Down(levels[..level]) == Down(levels)
    {
      level := level - 1;
      assert levels[..level + 1][..level] == levels[..level];
      ConcatAssociates(flat, levels[level], Down(levels[..level]));
      flat := flat + levels[level];
    }
    ConcatNothing(flat);
  }

  // ---- What a pass keeps ----

  lemma {:induction false} CoverConcat(a: seq<Message>, b: seq<Message>)
    ensures Cover(a + b) == Cover(a) + Cover(b)
  {
    if b == [] {
      ConcatNothing(a);
      ConcatNothing(Cover(a));
    } else {
      SnocOfConcat(a, b);
      CoverConcat(a, b[..|b| - 1]);
      ConcatAssociates(Cover(a), Cover(b[..|b| - 1]), b[|b| - 1].covers);
    }
  }

  lemma {:induction false} CoverOne(m: Message)
    ensures Cover([m]) == m.covers
  {
    assert [m][..0] == [];
    NothingConcat(m.covers);
  }

  /** Two neighbouring levels may be rewritten as long as they cover the same together. */
  lemma {:induction false} DownCovers(levels: seq<seq<Message>>, after: seq<seq<Message>>, level: nat)
    requires |after| == |levels| && level + 1 < |levels|
    requires forall l :: 0 <= l < |levels| && l != level && l != level + 1 ==> after[l] == levels[l]
    requires Cover(after[level + 1]) + Cover(after[level]) == Cover(levels[level + 1]) + Cover(levels[level])
    ensures Cover(Down(after)) == Cover(Down(levels))
  {
    hide Cover;
    var last := |levels| - 1;
    CoverConcat(levels[last], Down(levels[..last]));
    CoverConcat(after[last], Down(after[..last]));
    if level + 1 < last {
      DownCovers(levels[..last], after[..last], level);
    } else {
      assert after[..last][..level] == levels[..last][..level];
      CoverConcat(levels[level], Down(levels[..last][..level]));
      CoverConcat(after[level], Down(after[..last][..level]));
      ConcatAssociates(Cover(levels[last]), Cover(levels[level]), Cover(Down(levels[..last][..level])));
      ConcatAssociates(Cover(after[last]), Cover(after[level]), Cover(Down(levels[..last][..level])));
    }
  }

  lemma {:induction false} SquashCovers(levels: seq<seq<Message>>, level: nat, keep: nat, trigger: nat, llm: Summarizer)
    requires level + 1 < |levels|
    ensures Cover(Down(SquashLevel(levels, level, keep, trigger, llm))) == Cover(Down(levels))
  {
    hide Cover, Down, SquashCount;
    var n := SquashCount(levels[level], level, keep, trigger);
    if n.Some? && llm(level).Some? && llm(level).value != "" {
      var squashed, rest := levels[level][..n.value], levels[level][n.value..];
      var summary := Summary(squashed, level + 1, llm(level).value);
      CoverConcat(levels[level + 1], [summary]);
      CoverOne(summary);
      SplitAt(levels[level], n.value);
      CoverConcat(squashed, rest);
      ConcatAssociates(Cover(levels[level + 1]), Cover(squashed), Cover(rest));
      DownCovers(levels, SquashLevel(levels, level, keep, trigger, llm), level);
    }
  }

  lemma {:induction false} SquashedCovers(levels: seq<seq<Message>>, n: nat, keep: nat, trigger: nat, llm: Summarizer)
    requires n < |levels|
    ensures Cover(Down(Squashed(levels, n, keep, trigger, llm))) == Cover(Down(levels))
  {
    hide Cover, Down, SquashLevel;
    if n > 0 {
      SquashedCovers(levels, n - 1, keep, trigger, llm);
      SquashCovers(Squashed(levels, n - 1, keep, trigger, llm), n - 1, keep, trigger, llm);
    }
  }

  /** Every message sits in the bucket of its own level. */
  ghost predicate Sorted(levels: seq<seq<Message>>) {
    forall l, k :: 0 <= l < |levels| && 0 <= k < |levels[l]| ==> levels[l][k].level == l
  }

  lemma {:induction false} BucketLevel(history: seq<Message>, level: nat)
    ensures forall k :: 0 <= k < |Bucket(history, level)| ==> Bucket(history, level)[k].level == level
  {
    if history != [] { BucketLevel(history[..|history| - 1], level); }
  }

  lemma {:induction false} BucketsSorted(history: seq<Message>, n: nat)
    ensures Sorted(Buckets(history, n))
  {
    hide Bucket, Buckets;
    forall l | 0 <= l < n
      ensures forall k :: 0 <= k < |Buckets(history, n)[l]| ==> Buckets(history, n)[l][k].level == l
    {
      BucketsAt(history, n, l);
      BucketLevel(history, l);
    }
  }

  lemma {:induction false} SquashSorted(levels: seq<seq<Message>>, level: nat, keep: nat, trigger: nat, llm: Summarizer)
    requires level + 1 < |levels| && Sorted(levels)
    ensures Sorted(SquashLevel(levels, level, keep, trigger, llm))
  {
    hide SquashCount, Cover;
  }

  lemma {:induction false} SquashedSorted(levels: seq<seq<Message>>, n: nat, keep: nat, trigger: nat, llm: Summarizer)
    requires n < |levels| && Sorted(levels)
    ensures Sorted(Squashed(levels, n, keep, trigger, llm))
  {
    hide Sorted, SquashLevel;
    if n > 0 {
      SquashedSorted(levels, n - 1, keep, trigger, llm);
      SquashSorted(Squashed(levels, n - 1, keep, trigger, llm), n - 1, keep, trigger, llm);
    }
  }

  /** The visible messages go from high levels to low ones. */
  ghost predicate Descending(messages: seq<Message>) {
    && (forall k :: 0 <= k < |messages| ==> messages[k].level >= 0)
    && (forall j, k :: 0 <= j < k < |messages| ==> messages[j].level >= messages[k].level)
  }

  lemma {:induction false} DownDescends(levels: seq<seq<Message>>)
    requires Sorted(levels)
    ensures Descending(Down(levels))
    ensures forall k :: 0 <= k < |Down(levels)| ==> Down(levels)[k].level < |levels|
  {
    if levels != [] {
      DownDescends(levels[..|levels| - 1]);
      hide Down;
      assert Down(levels) == levels[|levels| - 1] + Down(levels[..|levels| - 1]) by { DownIs(levels); }
    }
  }

  lemma {:induction false} DownIs(levels: seq<seq<Message>>)
    requires levels != []
    ensures Down(levels) == levels[|levels| - 1] + Down(levels[..|levels| - 1])
  {
  }

  lemma {:induction false} VisibleConcat(a: seq<Message>, b: seq<Message>)
    ensures Visible(a + b) == Visible(a) + Visible(b)
    ensures Protected(a + b) == Protected(a) + Protected(b)
  {
    if b == [] {
      ConcatNothing(a);
      ConcatNothing(Visible(a));
      ConcatNothing(Protected(a));
    } else {
      var init, last := b[..|b| - 1], b[|b| - 1];
      SnocOfConcat(a, b);
      VisibleConcat(a, init);
      ConcatAssociates(Visible(a), Visible(init), if last.level < 0 then [] else [last]);
      ConcatAssociates(Protected(a), Protected(init), if last.level < 0 then [last] else []);
    }
  }

  lemma {:induction false} AllVisible(messages: seq<Message>)
    requires forall k :: 0 <= k < |messages| ==> messages[k].level >= 0
    ensures Visible(messages) == messages && Protected(messages) == []
  {
    if messages != [] {
      AllVisible(messages[..|messages| - 1]);
      SnocSplit(messages);
    }
  }

  lemma {:induction false} AllProtected(history: seq<Message>)
    ensures Visible(Protected(history)) == [] && Protected(Protected(history)) == Protected(history)
  {
    if history != [] {
      var init, last := history[..|history| - 1], history[|history| - 1];
      AllProtected(init);
      VisibleConcat(Protected(init), if last.level < 0 then [last] else []);
      VisibleOne(last);
      if last.level >= 0 { ConcatNothing(Protected(init)); }
    }
  }

  lemma {:induction false} VisibleOne(m: Message)
    ensures Visible([m]) == (if m.level < 0 then [] else [m]) && Protected([m]) == (if m.level < 0 then [m] else [])
  {
    assert [m][..0] == [];
  }

  /** Adding a message of the lowest level in use adds it at the end. */
  lemma {:induction false} DownSnoc(levels: seq<seq<Message>>, level: nat, m: Message)
    requires level < |levels| && forall l :: 0 <= l < level ==> levels[l] == []
    ensures Down(levels[level := levels[level] + [m]]) == Down(levels) + [m]
  {
    var last := |levels| - 1;
    var after := levels[level := levels[level] + [m]];
    DownIs(levels);
    DownIs(after);
    if level < last {
      assert after[..last] == levels[..last][level := levels[..last][level] + [m]];
      DownSnoc(levels[..last], level, m);
      ConcatAssociates(levels[last], Down(levels[..last]), [m]);
    } else {
      assert after[..last] == levels[..last];
      DownEmpty(levels[..last]);
      ConcatNothing(levels[last]);
      ConcatNothing(levels[last] + [m]);
    }
  }

  lemma {:induction false} DownEmpty(levels: seq<seq<Message>>)
    requires forall l :: 0 <= l < |levels| ==> levels[l] == []
    ensures Down(levels) == []
  {
    if levels != [] { DownEmpty(levels[..|levels| - 1]); }
  }

  lemma {:induction false} BucketEmpty(history: seq<Message>, level: nat)
    requires forall k :: 0 <= k < |Visible(history)| ==> Visible(history)[k].level != level
    ensures Bucket(history, level) == []
  {
    if history != [] {
      var init, last := history[..|history| - 1], history[|history| - 1];
      assert forall k :: 0 <= k < |Visible(init)| ==> Visible(history)[k] == Visible(init)[k];
      if last.level >= 0 { assert Visible(history)[|Visible(init)|] == last; }
      BucketEmpty(init, level);
    }
  }

  lemma {:induction false} BucketsOneMore(history: seq<Message>, n: nat)
    requires history != [] && history[|history| - 1].level < n
    ensures var init, last := history[..|history| - 1], history[|history| - 1];
            Buckets(history, n)
            == if last.level < 0 then Buckets(init, n)
               else Buckets(init, n)[last.level := Buckets(init, n)[last.level] + [last]]
  {
    hide Buckets;
    var init, last := history[..|history| - 1], history[|history| - 1];
    forall l | 0 <= l < n
      ensures Buckets(history, n)[l] == if l == last.level then Buckets(init, n)[l] + [last] else Buckets(init, n)[l]
    {
      BucketsAt(history, n, l);
      BucketsAt(init, n, l);
      if l != last.level { ConcatNothing(Bucket(init, l)); }
    }
  }

  /** A history whose levels descend is not reordered by sorting it into levels. */
  lemma {:induction false} SortingKeepsOrder(history: seq<Message>, n: nat)
    requires n >= Levels(history) && Descending(Visible(history))
    ensures Down(Buckets(history, n)) == Visible(history)
  {
    if history == [] {
      forall l | 0 <= l < n ensures Buckets(history, n)[l] == [] { BucketsAt(history, n, l); }
      DownEmpty(Buckets(history, n));
    } else {
      var init, last := history[..|history| - 1], history[|history| - 1];
      assert forall k :: 0 <= k < |Visible(init)| ==> Visible(history)[k] == Visible(init)[k];
      SortingKeepsOrder(init, n);
      BucketsOneMore(history, n);
      if last.level < 0 {
        ConcatNothing(Visible(init));
      } else {
        assert Visible(history)[|Visible(init)|] == last;
        hide Buckets, Down, Levels;
        forall l | 0 <= l < last.level ensures Buckets(init, n)[l] == [] {
          BucketsAt(init, n, l);
          BucketEmpty(init, l);
        }
        DownSnoc(Buckets(init, n), last.level, last);
      }
    }
  }

  /** A pass keeps the protected messages, and what the others cover, in order, whether the summaries
      succeed or not. */
  lemma {:induction false} PassConserves(history: seq<Message>, keep: nat, trigger: nat, llm: Summarizer)
    requires Descending(Visible(history))
    ensures var after := Pass(history, keep, trigger, llm);
            && Protected(after) == Protected(history)
            && Descending(Visible(after))
            && Cover(Visible(after)) == Cover(Visible(history))
  {
    hide Levels, Buckets, Squashed, Down, Cover, Visible, Protected, Descending, Sorted;
    var top := Levels(history);
    var levels := Buckets(history, top + 1);
    var squashed := Squashed(levels, top, keep, trigger, llm);
    SquashedCovers(levels, top, keep, trigger, llm);
    SortingKeepsOrder(history, top + 1);
    BucketsSorted(history, top + 1);
    SquashedSorted(levels, top, keep, trigger, llm);
    DownDescends(squashed);
    LevelsAreVisible(Down(squashed));
    AllVisible(Down(squashed));
    AllProtected(history);
    VisibleConcat(Protected(history), Down(squashed));
    NothingConcat(Down(squashed));
    ConcatNothing(Protected(history));
  }

  lemma {:induction false} LevelsAreVisible(messages: seq<Message>)
    requires Descending(messages)
    ensures forall k :: 0 <= k < |messages| ==> messages[k].level >= 0
  {
  }

  /** Raw conversation is squashed only up to a finished reply, and as far as there is one. */
  lemma {:induction false} SquashEndsOnReply(messages: seq<Message>, n: nat)
    requires n <= |messages|
    ensures var k := ToLastReply(messages, n);
            && (k > 0 ==> messages[k - 1].role == Assistant)
            && forall j :: k <= j < n ==> messages[j].role != Assistant
  {
    if n > 0 && messages[n - 1].role != Assistant { SquashEndsOnReply(messages, n - 1); }
  }

  // ---- What a pass squashes ----

  /** The first k messages of a level may go: the newest `keep` stay, at least `trigger` go, and raw conversation
      goes up to a finished reply. */
  predicate MayGo(messages: seq<Message>, k: nat, level: nat, keep: nat, trigger: nat) {
    && |messages| > keep && trigger <= k <= |messages| - keep
    && (level == 0 && k > 0 ==> messages[k - 1].role == Assistant)
  }

  predicate Summarised(llm: Summarizer, level: nat) {
    llm(level).Some? && llm(level).value != ""
  }

  /** What a level with these messages loses to its summary and what stays: the longest start that may go, if any
      may and the summary succeeds. */
  ghost predicate LosesRightly(messages: seq<Message>, gone: Option<seq<Message>>, stays: seq<Message>, level: nat,
                               keep: nat, trigger: nat, llm: Summarizer) {
    && (gone.Some? <==> Summarised(llm, level) && exists k: nat :: MayGo(messages, k, level, keep, trigger))
    && (gone.None? ==> stays == messages)
    && (gone.Some? ==>
          && messages == gone.value + stays
          && MayGo(messages, |gone.value|, level, keep, trigger)
          && forall k: nat :: MayGo(messages, k, level, keep, trigger) ==> k <= |gone.value|)
  }

  /** A level with the one message it gains when the level below is squashed. */
  function Gained(messages: seq<Message>, level: nat, below: Option<seq<Message>>, llm: Summarizer): seq<Message> {
    if level > 0 && below.Some? && llm(level - 1).Some? then
      messages + [Message(System, level, "Summary of previous context: " + llm(level - 1).value, Cover(below.value))]
    else messages
  }

  function Below(gone: seq<Option<seq<Message>>>, level: nat): Option<seq<Message>>
    requires level <= |gone|
  {
    if level == 0 then None else gone[level - 1]
  }

  /** The count is the longest start that may go. */
  lemma {:induction false} CountIsLongest(messages: seq<Message>, level: nat, keep: nat, trigger: nat)
    ensures var n := SquashCount(messages, level, keep, trigger);
            && (n.Some? <==> exists k: nat :: MayGo(messages, k, level, keep, trigger))
            && (n.Some? ==> MayGo(messages, n.value, level, keep, trigger))
            && (n.Some? ==> forall k: nat :: MayGo(messages, k, level, keep, trigger) ==> k <= n.value)
  {
    hide ToLastReply;
    if |messages| > keep {
      SquashEndsOnReply(messages, |messages| - keep);
      assert SquashCount(messages, level, keep, trigger).Some? ==>
          MayGo(messages, SquashCount(messages, level, keep, trigger).value, level, keep, trigger);
    }
  }

  /** One level squashed. */
  lemma {:induction false} SquashMeans(levels: seq<seq<Message>>, level: nat, keep: nat, trigger: nat,
      llm: Summarizer) returns (gone: Option<seq<Message>>)
    requires level + 1 < |levels|
    ensures var after := SquashLevel(levels, level, keep, trigger, llm);
            && LosesRightly(levels[level], gone, after[level], level, keep, trigger, llm)
            && after[level + 1] == Gained(levels[level + 1], level + 1, gone, llm)
            && forall l :: 0 <= l < |levels| && l != level && l != level + 1 ==> after[l] == levels[l]
  {
    hide SquashCount, Cover, MayGo;
    var messages := levels[level];
    var n := SquashCount(messages, level, keep, trigger);
    CountIsLongest(messages, level, keep, trigger);
    if n.Some? && Summarised(llm, level) {
      gone := Some(messages[..n.value]);
      SplitAt(messages, n.value);
    } else {
      gone := None;
    }
  }

  /** All levels squashed one after the other: each loses from what it holds once the level below is done. */
  lemma {:induction false} SquashedMeans(levels: seq<seq<Message>>, n: nat, keep: nat, trigger: nat,
      llm: Summarizer) returns (gone: seq<Option<seq<Message>>>)
    requires n < |levels|
    ensures |gone| == n
    ensures var after := Squashed(levels, n, keep, trigger, llm);
            && (forall l :: 0 <= l < n ==>
                  LosesRightly(Gained(levels[l], l, Below(gone, l), llm), gone[l], after[l], l, keep, trigger, llm))
            && after[n] == Gained(levels[n], n, Below(gone, n), llm)
            && forall l :: n < l < |levels| ==> after[l] == levels[l]
  {
    hide SquashLevel, Gained, LosesRightly;
    if n == 0 {
      gone := [];
      NothingSquashed(levels, keep, trigger, llm);
      NothingGained(levels[0], llm);
    } else {
      var before := SquashedMeans(levels, n - 1, keep, trigger, llm);
      SquashedNext(levels, n - 1, keep, trigger, llm);
      var last := SquashMeans(Squashed(levels, n - 1, keep, trigger, llm), n - 1, keep, trigger, llm);
      hide Squashed;
      gone := before + [last];
      forall l | 0 <= l < n ensures Below(gone, l) == Below(before, l) {}
    }
  }

  lemma {:induction false} NothingGained(messages: seq<Message>, llm: Summarizer)
    ensures Gained(messages, 0, None, llm) == messages
  {
  }

  /** What every pass does to every level: a level first gains the summary of the level below, if that was
      squashed; then its longest start that may go is gone, exactly if there is one and its summary succeeds; so
      its newest `keep` messages, or all if it has fewer, end it as before. */
  lemma {:induction false} PassSquashes(history: seq<Message>, keep: nat, trigger: nat,
      llm: Summarizer) returns (gone: seq<Option<seq<Message>>>)
    ensures |gone| == Levels(history)
    ensures forall l: nat :: l <= |gone| ==>
              var held, after := Gained(Bucket(history, l), l, Below(gone, l), llm), Bucket(Pass(history, keep, trigger, llm), l);
              && (if l < |gone| then LosesRightly(held, gone[l], after, l, keep, trigger, llm) else after == held)
              && KeepsNewest(held, after, keep)
  {
    hide Levels, Bucket, Buckets, Squashed, Pass, Gained, LosesRightly, Below, KeepsNewest;
    var top := Levels(history);
    var levels := Buckets(history, top + 1);
    gone := SquashedMeans(levels, top, keep, trigger, llm);
    forall l: nat | l <= top
      ensures var held, after := Gained(Bucket(history, l), l, Below(gone, l), llm), Bucket(Pass(history, keep, trigger, llm), l);
              && (if l < top then LosesRightly(held, gone[l], after, l, keep, trigger, llm) else after == held)
              && KeepsNewest(held, after, keep)
    {
      BucketsAt(history, top + 1, l);
      BucketOfPass(history, keep, trigger, llm, l);
      var held, after := Gained(Bucket(history, l), l, Below(gone, l), llm), Bucket(Pass(history, keep, trigger, llm), l);
      if l < top { LosingKeepsNewest(held, gone[l], after, l, keep, trigger, llm); } else { AllIsKept(held, keep); }
    }
  }

  ghost predicate KeepsNewest(before: seq<Message>, after: seq<Message>, keep: nat) {
    var k := if |before| < keep then |before| else keep;
    k <= |after| && after[|after| - k..] == before[|before| - k..]
  }

  lemma {:induction false} AllIsKept(messages: seq<Message>, keep: nat)
    ensures KeepsNewest(messages, messages, keep)
  {
  }

  lemma {:induction false} LosingKeepsNewest(messages: seq<Message>, gone: Option<seq<Message>>, stays: seq<Message>,
      level: nat, keep: nat, trigger: nat, llm: Summarizer)
    requires LosesRightly(messages, gone, stays, level, keep, trigger, llm)
    ensures KeepsNewest(messages, stays, keep)
  {
  }

  // ---- Whole conversations ----

  /** A pass copies the history and later writes its result back; anything may be pushed between the two. */
  datatype Event =
    | Said(role: Role, content: string)
    | Guarded(content: string)
    | Copied
    | WrittenBack(keep: nat, trigger: nat, llm: Summarizer)

  /** `said` and `guarded` are what was pushed so far, whether the history still has it or not. */
  datatype Story = Story(history: seq<Message>, said: nat, guarded: seq<Message>, copy: Option<seq<Message>>)

  function Happen(s: Story, e: Event): Story {
    match e
    case Said(role, content) => s.(history := s.history + [Message(role, 0, content, [s.said])], said := s.said + 1)
    case Guarded(content) =>
      var m := Message(System, -1, content, []);
      s.(history := s.history + [m], guarded := s.guarded + [m])
    case Copied => s.(copy := Some(s.history))
    case WrittenBack(keep, trigger, llm) =>
      if s.copy.None? then s else s.(history := Pass(s.copy.value, keep, trigger, llm), copy := None)
  }

  function After(events: seq<Event>): Story {
    if events == [] then Story([], 0, [], None) else Happen(After(events[..|events| - 1]), events[|events| - 1])
  }

  function UpTo(n: nat): (all: seq<nat>)
    ensures |all| == n
  {
    if n == 0 then [] else UpTo(n - 1) + [n - 1]
  }

  /** When the copy that waits to be written back was made. */
  function CopyAt(events: seq<Event>): (at: Option<nat>)
    ensures at.Some? ==> at.value < |events|
  {
    if events == [] then None
    else
      match events[|events| - 1]
      case Copied => Some(|events| - 1)
      case WrittenBack(_, _, _) => None
      case _ => CopyAt(events[..|events| - 1])
  }

  /** What survives a run: a write-back undoes every push since its copy was made. */
  function KeptSaid(events: seq<Event>): seq<nat> {
    if events == [] then []
    else
      var before := events[..|events| - 1];
      match events[|events| - 1]
      case Said(_, _) => KeptSaid(before) + [After(before).said]
      case WrittenBack(_, _, _) => if CopyAt(before).None? then KeptSaid(before) else KeptSaid(events[..CopyAt(before).value])
      case _ => KeptSaid(before)
  }

  function KeptGuarded(events: seq<Event>): seq<Message> {
    if events == [] then []
    else
      var before := events[..|events| - 1];
      match events[|events| - 1]
      case Guarded(content) => KeptGuarded(before) + [Message(System, -1, content, [])]
      case WrittenBack(_, _, _) =>
        if CopyAt(before).None? then KeptGuarded(before) else KeptGuarded(events[..CopyAt(before).value])
      case _ => KeptGuarded(before)
  }

  /** The visible messages stand for exactly what was said, in order, nothing skipped or twice; the protected
      messages are all there. */
  ghost predicate Conserves(s: Story) {
    && Descending(Visible(s.history))
    && Cover(Visible(s.history)) == UpTo(s.said)
    && Protected(s.history) == s.guarded
  }

  /** At each write-back the history is as long as its copy, which the code could check before it. */
  ghost predicate Undisturbed(events: seq<Event>) {
    events != [] ==>
      var before := events[..|events| - 1];
      && Undisturbed(before)
      && (events[|events| - 1].WrittenBack? && After(before).copy.Some? ==>
            |After(before).history| == |After(before).copy.value|)
  }

  lemma {:induction false} SaidKeeps(history: seq<Message>, m: Message)
    requires Descending(Visible(history)) && m.level == 0
    ensures Visible(history + [m]) == Visible(history) + [m] && Descending(Visible(history) + [m])
    ensures Cover(Visible(history + [m])) == Cover(Visible(history)) + m.covers
    ensures Protected(history + [m]) == Protected(history)
  {
    InitOfSnoc(history, m);
    ConcatNothing(Protected(history));
    InitOfSnoc(Visible(history), m);
  }

  lemma {:induction false} GuardedKeeps(history: seq<Message>, m: Message)
    requires m.level == -1
    ensures Visible(history + [m]) == Visible(history)
    ensures Protected(history + [m]) == Protected(history) + [m]
  {
    hide Visible, Protected;
    VisibleConcat(history, [m]);
    VisibleOne(m);
    ConcatNothing(Visible(history));
  }

  lemma {:induction false} CopyIsThen(events: seq<Event>)
    ensures After(events).copy
            == if CopyAt(events).None? then None else Some(After(events[..CopyAt(events).value]).history)
  {
    hide Pass;
    if events != [] {
      var before := events[..|events| - 1];
      CopyIsThen(before);
      if CopyAt(events).Some? && !events[|events| - 1].Copied? {
        TakeTake(events, CopyAt(events).value, |events| - 1);
      }
    }
  }

  /** After every run the history stands for exactly what survived it, in order, nothing of it skipped or
      twice, however the passes' summaries turn out. */
  lemma {:induction false} RunKeeps(events: seq<Event>)
    ensures var history := After(events).history;
            && Descending(Visible(history))
            && Cover(Visible(history)) == KeptSaid(events)
            && Protected(history) == KeptGuarded(events)
    decreases |events|
  {
    if events == [] {
      hide Bucket;
    } else {
      hide Visible, Protected, Cover, Descending, Pass;
      var before := events[..|events| - 1];
      RunKeeps(before);
      match events[|events| - 1]
      case Said(role, content) => SaidKeeps(After(before).history, Message(role, 0, content, [After(before).said]));
      case Guarded(content) => GuardedKeeps(After(before).history, Message(System, -1, content, []));
      case Copied =>
      case WrittenBack(keep, trigger, llm) =>
        CopyIsThen(before);
        if CopyAt(before).Some? {
          var at := CopyAt(before).value;
          TakeTake(events, at, |events| - 1);
          RunKeeps(events[..at]);
          PassConserves(After(events[..at]).history, keep, trigger, llm);
        }
    }
  }

  function Pushed(events: seq<Event>): nat {
    var s := After(events);
    s.said + |s.guarded|
  }

  function Kept(events: seq<Event>): nat {
    |KeptSaid(events)| + |KeptGuarded(events)|
  }

  /** Since the copy the history has grown by what was pushed, and nothing of that is lost yet. */
  lemma {:induction false} SinceCopy(events: seq<Event>)
    requires CopyAt(events).Some?
    ensures var copied := events[..CopyAt(events).value];
            && Pushed(events) - Pushed(copied) == |After(events).history| - |After(copied).history| == Kept(events) - Kept(copied)
            && Pushed(copied) <= Pushed(events)
            && (Pushed(copied) == Pushed(events) ==>
                  After(copied).said == After(events).said && After(copied).guarded == After(events).guarded
                  && KeptSaid(copied) == KeptSaid(events) && KeptGuarded(copied) == KeptGuarded(events))
  {
    hide Pass;
    var before := events[..|events| - 1];
    if !events[|events| - 1].Copied? {
      SinceCopy(before);
      TakeTake(events, CopyAt(events).value, |events| - 1);
    }
  }

  lemma {:induction false} WriteBackLoses(events: seq<Event>)
    requires events != [] && events[|events| - 1].WrittenBack?
    requires CopyAt(events[..|events| - 1]).Some?
    ensures var before := events[..|events| - 1];
            && After(before).copy.Some?
            && After(events).said == After(before).said && After(events).guarded == After(before).guarded
            && Kept(before) - Kept(events) == |After(before).history| - |After(before).copy.value| >= 0
            && (Kept(before) == Kept(events) ==>
                  KeptSaid(events) == KeptSaid(before) && KeptGuarded(events) == KeptGuarded(before))
  {
    hide Pass;
    var before := events[..|events| - 1];
    SinceCopy(before);
    CopyIsThen(before);
    TakeTake(events, CopyAt(before).value, |events| - 1);
  }

  lemma {:induction false} NothingIsUnsaid(events: seq<Event>)
    ensures Kept(events) <= Pushed(events)
    ensures Undisturbed(events) <==> Kept(events) == Pushed(events)
    ensures Undisturbed(events) ==> KeptSaid(events) == UpTo(After(events).said) && KeptGuarded(events) == After(events).guarded
  {
    hide Pass;
    if events != [] {
      var before := events[..|events| - 1];
      NothingIsUnsaid(before);
      CopyIsThen(before);
      if events[|events| - 1].WrittenBack? && CopyAt(before).Some? { WriteBackLoses(events); }
    }
  }

  /** The history conserves the conversation exactly if nothing was pushed between a copy and its write-back. */
  lemma {:induction false} ConversationIsConserved(events: seq<Event>)
    ensures Conserves(After(events)) <==> Undisturbed(events)
  {
    hide Visible, Protected, Cover, Descending, Pass, KeptSaid, KeptGuarded, Undisturbed, UpTo, After;
    RunKeeps(events);
    NothingIsUnsaid(events);
  }

  /** A pass of the default settings begins while the reply is on its way, and the reply lands before the pass
      has written back: it is gone. */
  lemma {:induction false} ReplyIsLost(question: string, reply: string, llm: Summarizer)
    ensures var run := [Said(User, question), Copied, Said(Assistant, reply), WrittenBack(30, 12, llm)];
            && After(run).said == 2
            && Cover(Visible(After(run).history)) == [0]
            && !Conserves(After(run))
  {
    hide Pass, Visible, Protected, Cover, Descending;
    var asked := [Said(User, question)];
    var copied := asked + [Copied];
    var replied := copied + [Said(Assistant, reply)];
    var run := replied + [WrittenBack(30, 12, llm)];
    assert asked[..0] == [];
    InitOfSnoc(asked, Copied);
    InitOfSnoc(copied, Said(Assistant, reply));
    InitOfSnoc(replied, WrittenBack(30, 12, llm));
    assert After([]) == Story([], 0, [], None);
    assert After(asked).said == 1 && KeptSaid(asked) == [0];
    assert After(copied).said == 1 && After(replied).said == 2;
    assert CopyAt(copied) == Some(1) && CopyAt(replied) == Some(1);
    assert run[..1] == asked && After(run).said == 2;
    assert run == [Said(User, question), Copied, Said(Assistant, reply), WrittenBack(30, 12, llm)];
    RunKeeps(run);
  }

  // ---- How many messages a pass leaves ----

  ghost predicate Succeeds(llm: Summarizer) {
    forall level: nat :: llm(level).Some? && llm(level).value != ""
  }

  ghost predicate Bounded(messages: seq<Message>, bound: nat) {
    forall level: nat :: level > 0 ==> |Bucket(messages, level)| < bound
  }

  lemma {:induction false} BucketConcat(a: seq<Message>, b: seq<Message>, level: nat)
    ensures Bucket(a + b, level) == Bucket(a, level) + Bucket(b, level)
  {
    if b == [] {
      ConcatNothing(a);
      ConcatNothing(Bucket(a, level));
    } else {
      var init, last := b[..|b| - 1], b[|b| - 1];
      SnocOfConcat(a, b);
      BucketConcat(a, init, level);
      ConcatAssociates(Bucket(a, level), Bucket(init, level), if last.level == level then [last] else []);
    }
  }

  lemma {:induction false} BucketOfLevel(messages: seq<Message>, of: int, level: nat)
    requires forall k :: 0 <= k < |messages| ==> messages[k].level == of
    ensures Bucket(messages, level) == if of == level then messages else []
  {
    if messages != [] {
      BucketOfLevel(messages[..|messages| - 1], of, level);
      SnocSplit(messages);
    }
  }

  lemma {:induction false} BucketOfDown(levels: seq<seq<Message>>, level: nat)
    requires Sorted(levels)
    ensures Bucket(Down(levels), level) == if level < |levels| then levels[level] else []
  {
    if levels != [] {
      hide Bucket, Down;
      var last := |levels| - 1;
      DownIs(levels);
      BucketOfDown(levels[..last], level);
      BucketConcat(levels[last], Down(levels[..last]), level);
      BucketOfLevel(levels[last], last, level);
    }
  }

  lemma {:induction false} BucketOfProtected(history: seq<Message>, level: nat)
    ensures Bucket(Protected(history), level) == []
  {
    if history != [] {
      var init, last := history[..|history| - 1], history[|history| - 1];
      BucketOfProtected(init, level);
      BucketConcat(Protected(init), if last.level < 0 then [last] else [], level);
      BucketOfLevel([last], last.level, level);
    }
  }

  lemma {:induction false} BucketOfPass(history: seq<Message>, keep: nat, trigger: nat, llm: Summarizer, level: nat)
    ensures var top := Levels(history);
            var squashed := Squashed(Buckets(history, top + 1), top, keep, trigger, llm);
            Bucket(Pass(history, keep, trigger, llm), level) == if level < |squashed| then squashed[level] else []
  {
    hide Bucket, Down, Levels, Buckets, Squashed, Protected, Sorted;
    var top := Levels(history);
    var squashed := Squashed(Buckets(history, top + 1), top, keep, trigger, llm);
    BucketsSorted(history, top + 1);
    SquashedSorted(Buckets(history, top + 1), top, keep, trigger, llm);
    BucketOfDown(squashed, level);
    BucketOfProtected(history, level);
    BucketConcat(Protected(history), Down(squashed), level);
  }

  lemma {:induction false} SquashedSizes(levels: seq<seq<Message>>, n: nat, keep: nat, trigger: nat, llm: Summarizer)
    requires n < |levels| && trigger >= 1 && Succeeds(llm)
    ensures var after := Squashed(levels, n, keep, trigger, llm);
            && (forall l :: 0 < l < n ==> |after[l]| < keep + trigger)
            && |after[n]| <= |levels[n]| + 1
            && (forall l :: n < l < |levels| ==> after[l] == levels[l])
  {
    if n > 0 {
      SquashedSizes(levels, n - 1, keep, trigger, llm);
      hide Squashed, ToLastReply;
      var before := Squashed(levels, n - 1, keep, trigger, llm);
      assert Squashed(levels, n, keep, trigger, llm) == SquashLevel(before, n - 1, keep, trigger, llm) by {
        SquashedNext(levels, n - 1, keep, trigger, llm);
      }
      assert llm(n - 1).Some? && llm(n - 1).value != "";
    }
  }

  /** A pass whose summaries all succeed leaves every level above the first below keep + trigger messages,
      whatever it starts from, if the trigger is at least one and the two are not just one together. */
  lemma {:induction false} PassIsBounded(history: seq<Message>, keep: nat, trigger: nat, llm: Summarizer)
    requires trigger >= 1 && keep + trigger >= 2 && Succeeds(llm)
    ensures Bounded(Pass(history, keep, trigger, llm), keep + trigger)
  {
    hide Bucket, Levels, Buckets, Squashed, Pass, Succeeds;
    var top := Levels(history);
    var levels := Buckets(history, top + 1);
    SquashedSizes(levels, top, keep, trigger, llm);
    BucketsAt(history, top + 1, top);
    AboveTop(history, top);
    forall level: nat | level > 0
      ensures |Bucket(Pass(history, keep, trigger, llm), level)| < keep + trigger
    {
      BucketOfPass(history, keep, trigger, llm, level);
    }
  }

  lemma {:induction false} NothingToSquash(levels: seq<seq<Message>>, n: nat, keep: nat, trigger: nat, llm: Summarizer)
    requires n < |levels| && forall l :: 0 <= l < n ==> |levels[l]| <= keep
    ensures Squashed(levels, n, keep, trigger, llm) == levels
  {
    if n > 0 { NothingToSquash(levels, n - 1, keep, trigger, llm); }
  }

  /** So many old summaries. */
  function Summaries(n: nat): seq<Message> {
    if n == 0 then [] else Summaries(n - 1) + [Message(System, 1, "", [])]
  }

  lemma {:induction false} SummariesAre(n: nat)
    ensures |Summaries(n)| == n && forall k :: 0 <= k < n ==> Summaries(n)[k].level == 1
    ensures Levels(Summaries(n)) <= 2
  {
    if n > 0 {
      SummariesAre(n - 1);
      InitOfSnoc(Summaries(n - 1), Message(System, 1, "", []));
    }
  }

  lemma {:induction false} ZeroTriggerFails(keep: nat, llm: Summarizer)
    ensures |Bucket(Pass(Summaries(keep), keep, 0, llm), 1)| == keep
  {
    hide Bucket, Levels, Buckets, Squashed, Pass, Summaries;
    var history := Summaries(keep);
    var top := Levels(history);
    var levels := Buckets(history, top + 1);
    SummariesAre(keep);
    forall l | 0 <= l < top + 1 ensures levels[l] == if l == 1 then history else [] {
      BucketsAt(history, top + 1, l);
      BucketOfLevel(history, 1, l);
    }
    NothingToSquash(levels, top, keep, 0, llm);
    BucketOfPass(history, keep, 0, llm, 1);
    if top == 0 { AboveTop(history, 1); BucketOfLevel(history, 1, 1); }
  }

  lemma {:induction false} OneMessageFails(llm: Summarizer)
    requires Succeeds(llm)
    ensures |Bucket(Pass([Message(Assistant, 0, "", [0])], 0, 1, llm), 1)| == 1
  {
    var m := Message(Assistant, 0, "", [0]);
    assert [m][..0] == [];
    assert llm(0).Some? && llm(0).value != "";
    assert Levels([m]) == 1;
    var levels := Buckets([m], 2);
    BucketsAt([m], 2, 0);
    BucketsAt([m], 2, 1);
    assert Bucket([m], 0) == [m] && Bucket([m], 1) == [];
    hide Bucket, Levels, Buckets, Pass, Succeeds;
    NothingSquashed(levels, 0, 1, llm);
    SquashedNext(levels, 0, 0, 1, llm);
    BucketOfPass([m], 0, 1, llm, 1);
  }

  /** The bound holds of every successful pass exactly for those settings. */
  lemma {:induction false} BoundHoldsExactly(keep: nat, trigger: nat, llm: Summarizer)
    requires Succeeds(llm)
    ensures (forall history :: Bounded(Pass(history, keep, trigger, llm), keep + trigger)) <==> trigger >= 1 && keep + trigger >= 2
  {
    hide Bucket, Pass;
    if trigger >= 1 && keep + trigger >= 2 {
      forall history ensures Bounded(Pass(history, keep, trigger, llm), keep + trigger) {
        PassIsBounded(history, keep, trigger, llm);
      }
    } else if trigger == 0 {
      ZeroTriggerFails(keep, llm);
      assert !Bounded(Pass(Summaries(keep), keep, trigger, llm), keep + trigger);
    } else {
      OneMessageFails(llm);
      assert !Bounded(Pass([Message(Assistant, 0, "", [0])], keep, trigger, llm), keep + trigger);
    }
  }
}
