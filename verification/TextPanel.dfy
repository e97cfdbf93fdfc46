/** The scrollable text panel (`NCURSES_TEXT_PANEL`, source/user_io.cpp): a cache of wrapped
    rows that is kept up to date piece by piece.

    `Canon` builds entries and rows from scratch; the class shows that every method of the panel
    lands exactly there. */
module TextPanels {
  import opened Options
  import opened Sequences
  import opened WordWrapping

  /** One row on the screen. */
  datatype Row = Row(text: string, attr: int)

  /** One logical paragraph, and how many of the cached rows belong to it. */
  datatype Entry = Entry(raw: string, attr: int, rows: nat)

  /** A paragraph without the bookkeeping. */
  datatype Para = Para(raw: string, attr: int)

  datatype Cache = Cache(entries: seq<Entry>, rows: seq<Row>)

  // ---- From scratch ----

  function Styled(lines: seq<string>, attr: int): (rows: seq<Row>)
    ensures |rows| == |lines|
  {
    seq(|lines|, k requires 0 <= k < |lines| => Row(lines[k], attr))
  }

  function RowsOf(p: Para, width: int): (rows: seq<Row>)
    ensures |rows| > 0
  {
    Styled(Wrap(p.raw, width), p.attr)
  }

  function EntryOf(p: Para, width: int): Entry {
    Entry(p.raw, p.attr, |RowsOf(p, width)|)
  }

  function AllRows(ps: seq<Para>, width: int): seq<Row> {
    if ps == [] then [] else RowsOf(ps[0], width) + AllRows(ps[1..], width)
  }

  function AllEntries(ps: seq<Para>, width: int): (es: seq<Entry>)
    ensures |es| == |ps|
  {
    if ps == [] then [] else [EntryOf(ps[0], width)] + AllEntries(ps[1..], width)
  }

  function Paras(es: seq<Entry>): (ps: seq<Para>)
    ensures |ps| == |es|
  {
    if es == [] then [] else [Para(es[0].raw, es[0].attr)] + Paras(es[1..])
  }

  function RowSum(es: seq<Entry>): nat {
    if es == [] then 0 else es[0].rows + RowSum(es[1..])
  }

  /** Takes `drop` rows away from the front of the entries; an entry with none left goes. */
  function Evict(es: seq<Entry>, drop: nat): seq<Entry> {
    if drop == 0 || es == [] then es
    else if es[0].rows <= drop then
      Evict(es[1..], drop - es[0].rows)
    else [es[0].(rows := es[0].rows - drop)] + es[1..]
  }

  /** How many rows are over the limit; a limit of 0 is no limit. */
  function Excess(total: nat, cap: nat): nat {
    if cap == 0 || total <= cap then 0 else total - cap
  }

  /** Entries and rows of a list of paragraphs with the first `drop` rows gone. */
  function At(ps: seq<Para>, width: int, drop: nat): Cache
    requires drop <= |AllRows(ps, width)|
  {
    Cache(Evict(AllEntries(ps, width), drop), AllRows(ps, width)[drop..])
  }

  /** What a panel with this limit should hold for these paragraphs. */
  function Canon(ps: seq<Para>, width: int, cap: nat): Cache {
    At(ps, width, Excess(|AllRows(ps, width)|, cap))
  }

  // ---- Facts about the pieces ----

  ghost predicate Positive(es: seq<Entry>) {
    forall k :: 0 <= k < |es| ==> es[k].rows > 0
  }

  lemma {:induction false} EntriesOfParas(ps: seq<Para>, width: int)
    ensures Paras(AllEntries(ps, width)) == ps
    ensures Positive(AllEntries(ps, width))
    ensures RowSum(AllEntries(ps, width)) == |AllRows(ps, width)|
  {
    if ps != [] { EntriesOfParas(ps[1..], width); }
  }

  lemma {:induction false} AllRowsConcat(ps: seq<Para>, qs: seq<Para>, width: int)
    ensures AllRows(ps + qs, width) == AllRows(ps, width) + AllRows(qs, width)
    ensures AllEntries(ps + qs, width) == AllEntries(ps, width) + AllEntries(qs, width)
  {
    if ps == [] {
      NothingConcat(qs);
      NothingConcat(AllRows(qs, width));
      NothingConcat(AllEntries(qs, width));
    } else {
      AllRowsConcat(ps[1..], qs, width);
      TailOfConcat(ps, qs);
      ConcatAssociates(RowsOf(ps[0], width), AllRows(ps[1..], width), AllRows(qs, width));
      ConcatAssociates([EntryOf(ps[0], width)], AllEntries(ps[1..], width), AllEntries(qs, width));
    }
  }

  lemma {:induction false} RowSumConcat(es: seq<Entry>, fs: seq<Entry>)
    ensures RowSum(es + fs) == RowSum(es) + RowSum(fs)
  {
    if es == [] {
      NothingConcat(fs);
    } else {
      RowSumConcat(es[1..], fs);
      TailOfConcat(es, fs);
    }
  }

  lemma {:induction false} RowSumPositive(es: seq<Entry>)
    requires Positive(es)
    ensures RowSum(es) >= |es|
  {
    if es != [] { RowSumPositive(es[1..]); }
  }

  lemma {:induction false} ParasConcat(es: seq<Entry>, fs: seq<Entry>)
    ensures Paras(es + fs) == Paras(es) + Paras(fs)
  {
    if es == [] {
      NothingConcat(fs);
      NothingConcat(Paras(fs));
    } else {
      ParasConcat(es[1..], fs);
      TailOfConcat(es, fs);
      ConcatAssociates([Para(es[0].raw, es[0].attr)], Paras(es[1..]), Paras(fs));
    }
  }

  /** Dropping rows from a front part leaves the rest alone; dropping all of it drops those entries. */
  lemma {:induction false} EvictConcat(es: seq<Entry>, fs: seq<Entry>, drop: nat)
    requires Positive(es)
    ensures drop < RowSum(es) ==> Evict(es + fs, drop) == Evict(es, drop) + fs && Evict(es, drop) != []
    ensures drop >= RowSum(es) ==> Evict(es + fs, drop) == Evict(fs, drop - RowSum(es))
  {
    RowSumPositive(es);
    if es == [] {
      NothingConcat(fs);
    } else {
      TailOfConcat(es, fs);
      RowSumPositive(es[1..]);
      if drop == 0 {
      } else if es[0].rows <= drop {
        EvictConcat(es[1..], fs, drop - es[0].rows);
      } else {
        ConcatAssociates([es[0].(rows := es[0].rows - drop)], es[1..], fs);
      }
    }
  }

  /** What the front entry does to an eviction. */
  lemma {:induction false} EvictFront(e: Entry, es: seq<Entry>, drop: nat)
    ensures Evict([e] + es, drop)
            == if drop == 0 then [e] + es
               else if e.rows <= drop then Evict(es, drop - e.rows)
               else [e.(rows := e.rows - drop)] + es
  {
    assert ([e] + es)[1..] == es;
  }

  lemma {:induction false} EvictTwice(es: seq<Entry>, a: nat, b: nat)
    requires Positive(es)
    ensures Evict(Evict(es, a), b) == Evict(es, a + b)
  {
    hide Evict;
    if es == [] {
      EvictNothing(a, b);
    } else {
      var e, rest := es[0], es[1..];
      assert es == [e] + rest;
      EvictFront(e, rest, a);
      EvictFront(e, rest, a + b);
      if a > 0 {
        if e.rows <= a {
          EvictTwice(rest, a - e.rows, b);
        } else {
          EvictFront(e.(rows := e.rows - a), rest, b);
        }
      }
    }
  }

  lemma {:induction false} EvictNothing(a: nat, b: nat)
    ensures Evict([], a) == [] && Evict(Evict([], a), b) == [] && Evict([], a + b) == []
  {
  }

  lemma {:induction false} EvictSum(es: seq<Entry>, drop: nat)
    requires Positive(es) && drop <= RowSum(es)
    ensures Positive(Evict(es, drop)) && RowSum(Evict(es, drop)) == RowSum(es) - drop
  {
    if es != [] && drop > 0 {
      RowSumPositive(es[1..]);
      if es[0].rows <= drop {
        EvictSum(es[1..], drop - es[0].rows);
      } else {
        var rest := [es[0].(rows := es[0].rows - drop)] + es[1..];
        assert rest[1..] == es[1..];
      }
    }
  }

  /** Where in the paragraphs the first `drop` rows end. */
  lemma {:induction false} SplitAtRow(ps: seq<Para>, width: int, drop: nat)
      returns (gone: seq<Para>, kept: seq<Para>)
    requires drop <= |AllRows(ps, width)|
    ensures ps == gone + kept && |AllRows(gone, width)| <= drop
    ensures drop == |AllRows(gone, width)|
         || (kept != [] && drop < |AllRows(gone, width)| + |RowsOf(kept[0], width)|)
    decreases ps
  {
    if ps == [] || drop < |RowsOf(ps[0], width)| {
      gone, kept := [], ps;
      NothingConcat(ps);
    } else {
      var head := ps[0];
      gone, kept := SplitAtRow(ps[1..], width, drop - |RowsOf(head, width)|);
      ConcatAssociates([head], gone, kept);
      AllRowsConcat([head], gone, width);
      AllRowsConcat([head], [], width);
      gone := [head] + gone;
    }
  }

  /** What is left after dropping is a tail of the paragraphs; only its first entry can be cut. */
  lemma {:induction false} EvictLeavesTail(ps: seq<Para>, width: int, drop: nat)
      returns (gone: seq<Para>, kept: seq<Para>)
    requires drop <= |AllRows(ps, width)|
    ensures ps == gone + kept && |AllRows(gone, width)| <= drop
    ensures Paras(Evict(AllEntries(ps, width), drop)) == kept
    ensures var cut := drop - |AllRows(gone, width)|;
            && Evict(AllEntries(ps, width), drop) == Evict(AllEntries(kept, width), cut)
            && (cut == 0 || (kept != [] && cut < |RowsOf(kept[0], width)|))
  {
    hide AllRows, AllEntries, Evict, Paras;
    gone, kept := SplitAtRow(ps, width, drop);
    AllRowsConcat(gone, kept, width);
    EntriesOfParas(gone, width);
    EntriesOfParas(kept, width);
    EvictConcat(AllEntries(gone, width), AllEntries(kept, width), drop);
    CutHead(kept, width, drop - |AllRows(gone, width)|);
  }

  /** Cutting into the first entry keeps every paragraph. */
  lemma {:induction false} CutHead(ps: seq<Para>, width: int, drop: nat)
    requires drop == 0 || (ps != [] && drop < |RowsOf(ps[0], width)|)
    ensures Paras(Evict(AllEntries(ps, width), drop)) == ps
  {
    EntriesOfParas(ps, width);
    if drop > 0 {
      var es := AllEntries(ps, width);
      var cut := es[0].(rows := es[0].rows - drop);
      TailOfConcat([cut], es[1..]);
      NothingConcat(es[1..]);
    }
  }

  /** Paragraphs whose rows all lie above the limit make no difference. */
  lemma {:induction false} CanonForgets(ps: seq<Para>, qs: seq<Para>, width: int, cap: nat)
    requires cap > 0 && |AllRows(qs, width)| >= cap
    ensures Canon(ps + qs, width, cap) == Canon(qs, width, cap)
  {
    hide AllRows, AllEntries, Evict, RowSum;
    AllRowsConcat(ps, qs, width);
    EntriesOfParas(ps, width);
    var p, q := AllRows(ps, width), AllRows(qs, width);
    var drop := Excess(|p + q|, cap);
    EvictConcat(AllEntries(ps, width), AllEntries(qs, width), drop);
    DropOfConcat(p, q, drop);
  }

  /** Building from what a panel still holds gives the panel back, and it holds all that matters:
      some tail of the paragraphs that has enough rows of its own. */
  lemma {:induction false} CanonTail(ps: seq<Para>, width: int, cap: nat)
      returns (gone: seq<Para>, kept: seq<Para>)
    ensures ps == gone + kept && Paras(Canon(ps, width, cap).entries) == kept
    ensures gone != [] ==> kept != [] && cap > 0 && |AllRows(kept, width)| >= cap
    ensures Canon(kept, width, cap) == Canon(ps, width, cap)
  {
    var drop := Excess(|AllRows(ps, width)|, cap);
    gone, kept := EvictLeavesTail(ps, width, drop);
    if gone == [] {
      NothingConcat(kept);
    } else {
      AllRowsConcat(gone, kept, width);
      assert |AllRows(gone, width)| > 0;
      CanonForgets(gone, kept, width, cap);
    }
  }

  lemma {:induction false} CanonIsStable(ps: seq<Para>, width: int, cap: nat)
    ensures var c := Canon(ps, width, cap); Canon(Paras(c.entries), width, cap) == c
  {
    var gone, kept := CanonTail(ps, width, cap);
  }

  // ---- Newlines and merging ----

  /** The pieces between newlines; always at least one. */
  function Paragraphs(text: string): (ps: seq<string>)
    ensures |ps| > 0
  {
    if text == "" then [""] else Grown(Paragraphs(text[..|text| - 1]), text[|text| - 1])
  }

  /** One more character: a newline starts a new piece, anything else goes on with the last. */
  function Grown(ps: seq<string>, c: char): (qs: seq<string>)
    requires |ps| > 0
    ensures |qs| > 0
  {
    if c == '\n' then ps + [""] else ps[..|ps| - 1] + [ps[|ps| - 1] + [c]]
  }

  /** The pieces of two texts put together: the last of one goes on with the first of the other. */
  function Glue(p: seq<string>, q: seq<string>): seq<string>
    requires |p| > 0 && |q| > 0
  {
    p[..|p| - 1] + [p[|p| - 1] + q[0]] + q[1..]
  }

  function Fresh(pieces: seq<string>, attr: int): (ps: seq<Para>)
    ensures |ps| == |pieces|
  {
    seq(|pieces|, k requires 0 <= k < |pieces| => Para(pieces[k], attr))
  }

  /** The first piece goes on with the last paragraph when both look the same; the others start new ones. */
  function Continue(ps: seq<Para>, pieces: seq<string>, attr: int): seq<Para>
    requires |pieces| > 0
  {
    if ps != [] && ps[|ps| - 1].attr == attr then
      ps[..|ps| - 1] + [Para(ps[|ps| - 1].raw + pieces[0], attr)] + Fresh(pieces[1..], attr)
    else ps + Fresh(pieces, attr)
  }

  function Appended(ps: seq<Para>, text: string, attr: int): seq<Para> {
    if text == "" then ps else Continue(ps, Paragraphs(text), attr)
  }

  lemma {:induction false} AppendedIs(ps: seq<Para>, text: string, attr: int)
    requires text != ""
    ensures Appended(ps, text, attr) == Continue(ps, Paragraphs(text), attr)
  {
  }

  lemma {:induction false} ParagraphsConcat(a: string, b: string)
    ensures Paragraphs(a + b) == Glue(Paragraphs(a), Paragraphs(b))
  {
    if b == "" {
      ConcatNothing(a);
      ConcatNothing(Paragraphs(a)[|Paragraphs(a)| - 1]);
      ConcatNothing(Glue(Paragraphs(a), [""]));
      SnocSplit(Paragraphs(a));
    } else {
      var init, c := b[..|b| - 1], b[|b| - 1];
      ParagraphsConcat(a, init);
      SnocOfConcat(a, b);
      GlueGrows(Paragraphs(a), Paragraphs(init), c);
    }
  }

  lemma {:induction false} GlueGrows(p: seq<string>, r: seq<string>, c: char)
    requires |p| > 0 && |r| > 0
    ensures Glue(p, Grown(r, c)) == Grown(Glue(p, r), c)
  {
    var joined := p[|p| - 1] + r[0];
    if c == '\n' {
      assert Grown(r, c)[1..] == r[1..] + [""];
      ConcatAssociates(p[..|p| - 1] + [joined], r[1..], [""]);
    } else if |r| == 1 {
      ConcatAssociates(p[|p| - 1], r[0], [c]);
      ConcatNothing(p[..|p| - 1] + [joined]);
    } else {
      SnocOfConcat(p[..|p| - 1] + [joined], r[1..]);
      assert Grown(r, c)[1..] == r[1..][..|r| - 2] + [r[|r| - 1] + [c]];
      ConcatAssociates(p[..|p| - 1] + [joined], r[1..][..|r| - 2], [r[|r| - 1] + [c]]);
    }
  }

  /** Text appended in two chunks of one colour leaves the paragraphs that one chunk leaves. */
  lemma {:induction false} AppendedConcat(ps: seq<Para>, a: string, b: string, attr: int)
    ensures Appended(Appended(ps, a, attr), b, attr) == Appended(ps, a + b, attr)
  {
    if a == "" {
      assert a + b == b;
    } else if b == "" {
      assert a + b == a;
    } else {
      ParagraphsConcat(a, b);
      ContinueTwice(ps, Paragraphs(a), Paragraphs(b), attr);
    }
  }

  lemma {:induction false} FreshConcat(p: seq<string>, q: seq<string>, attr: int)
    ensures Fresh(p + q, attr) == Fresh(p, attr) + Fresh(q, attr)
  {
  }

  /** Where the first piece has been merged, the rest is plain concatenation. */
  lemma {:induction false} ContinueTwice(ps: seq<Para>, p: seq<string>, q: seq<string>, attr: int)
    requires |p| > 0 && |q| > 0
    ensures Continue(Continue(ps, p, attr), q, attr) == Continue(ps, Glue(p, q), attr)
  {
    if ps != [] && ps[|ps| - 1].attr == attr {
      ContinueMerged(ps[..|ps| - 1], ps[|ps| - 1].raw, p, q, attr);
    } else {
      NothingConcat(p[0]);
      NothingConcat(Glue(p, q)[0]);
      ContinueMerged(ps, "", p, q, attr);
      FreshHead(ps, p, attr);
      FreshHead(ps, Glue(p, q), attr);
    }
  }

  lemma {:induction false} FreshHead(ps: seq<Para>, p: seq<string>, attr: int)
    requires |p| > 0
    ensures ps + Fresh(p, attr) == ps + [Para(p[0], attr)] + Fresh(p[1..], attr)
  {
    assert Fresh(p, attr) == [Para(p[0], attr)] + Fresh(p[1..], attr);
    ConcatAssociates(ps, [Para(p[0], attr)], Fresh(p[1..], attr));
  }

  lemma {:induction false} ContinueMerged(front: seq<Para>, raw: string, p: seq<string>, q: seq<string>, attr: int)
    requires |p| > 0 && |q| > 0
    ensures Continue(front + [Para(raw + p[0], attr)] + Fresh(p[1..], attr), q, attr)
         == front + [Para(raw + Glue(p, q)[0], attr)] + Fresh(Glue(p, q)[1..], attr)
  {
    var head := front + [Para(raw + p[0], attr)];
    if |p| == 1 {
      ConcatNothing(head);
      ConcatAssociates(raw, p[0], q[0]);
      assert Glue(p, q)[1..] == q[1..];
    } else {
      var middle := p[1..];
      SnocOfConcat(head, Fresh(middle, attr));
      assert Fresh(middle, attr)[..|p| - 2] == Fresh(p[1..|p| - 1], attr);
      assert Glue(p, q)[1..] == p[1..|p| - 1] + [p[|p| - 1] + q[0]] + q[1..];
      FreshConcat(p[1..|p| - 1] + [p[|p| - 1] + q[0]], q[1..], attr);
      FreshConcat(p[1..|p| - 1], [p[|p| - 1] + q[0]], attr);
      ConcatAssociates(head, Fresh(p[1..|p| - 1], attr), [Para(p[|p| - 1] + q[0], attr)]);
      ConcatAssociates(head, Fresh(p[1..|p| - 1], attr) + [Para(p[|p| - 1] + q[0], attr)], Fresh(q[1..], attr));
    }
  }

  /** Appending never takes rows away. */
  lemma {:induction false} AppendedGrows(ps: seq<Para>, text: string, attr: int, width: int)
    ensures |AllRows(Appended(ps, text, attr), width)| >= |AllRows(ps, width)|
  {
    if text != "" {
      var pieces := Paragraphs(text);
      if ps != [] && ps[|ps| - 1].attr == attr {
        var front, last := ps[..|ps| - 1], ps[|ps| - 1];
        var grown := Para(last.raw + pieces[0], attr);
        SnocSplit(ps);
        AllRowsConcat(front, [last], width);
        AllRowsConcat(front, [grown], width);
        AllRowsConcat(front + [grown], Fresh(pieces[1..], attr), width);
        AppendExtends(last.raw, pieces[0], width);
      } else {
        AllRowsConcat(ps, Fresh(pieces, attr), width);
      }
    }
  }

  /** Appending looks only at the last paragraph. */
  lemma {:induction false} AppendedAfter(front: seq<Para>, back: seq<Para>, text: string, attr: int)
    requires back != []
    ensures Appended(front + back, text, attr) == front + Appended(back, text, attr)
  {
    if text != "" {
      var pieces := Paragraphs(text);
      SnocOfConcat(front, back);
      if back[|back| - 1].attr == attr {
        var init := back[..|back| - 1];
        var grown := [Para(back[|back| - 1].raw + pieces[0], attr)];
        ConcatAssociates(front, init, grown);
        ConcatAssociates(front, init + grown, Fresh(pieces[1..], attr));
      } else {
        ConcatAssociates(front, back, Fresh(pieces, attr));
      }
    }
  }

  /** Appending to what a panel still holds gives the same panel as appending to everything it was given. */
  lemma {:induction false} EvictionCommutesWithAppend(ps: seq<Para>, text: string, attr: int, width: int, cap: nat)
    ensures Canon(Appended(Paras(Canon(ps, width, cap).entries), text, attr), width, cap)
         == Canon(Appended(ps, text, attr), width, cap)
  {
    var gone, kept := CanonTail(ps, width, cap);
    if gone == [] {
      NothingConcat(kept);
    } else {
      AppendedAfter(gone, kept, text, attr);
      AppendedGrows(kept, text, attr, width);
      CanonForgets(gone, Appended(kept, text, attr), width, cap);
    }
  }

  // ---- Whole histories ----

  datatype Piece = Piece(text: string, attr: int)

  /** All the paragraphs ever appended. */
  function Log(pieces: seq<Piece>): seq<Para> {
    if pieces == [] then []
    else Appended(Log(pieces[..|pieces| - 1]), pieces[|pieces| - 1].text, pieces[|pieces| - 1].attr)
  }

  /** What one piece leaves of a panel. */
  function AddTo(c: Cache, text: string, attr: int, width: int, cap: nat): Cache {
    if text == "" then c else Canon(Appended(Paras(c.entries), text, attr), width, cap)
  }

  /** The panel after each piece, each append working only on what the panel still held. */
  function After(pieces: seq<Piece>, width: int, cap: nat): Cache {
    if pieces == [] then Cache([], [])
    else
      var before := After(pieces[..|pieces| - 1], width, cap);
      var last := pieces[|pieces| - 1];
      AddTo(before, last.text, last.attr, width, cap)
  }

  /** At one width, evicting as it goes costs a panel nothing: it always shows the last rows of
      everything ever appended. */
  lemma {:induction false} EvictionIsInvisible(pieces: seq<Piece>, width: int, cap: nat)
    ensures After(pieces, width, cap) == Canon(Log(pieces), width, cap)
  {
    if pieces != [] {
      var init, last := pieces[..|pieces| - 1], pieces[|pieces| - 1];
      EvictionIsInvisible(init, width, cap);
      EvictionCommutesWithAppend(Log(init), last.text, last.attr, width, cap);
    }
  }

  /** How streamed text is cut into chunks does not show, whatever the panel holds and whatever width it was
      wrapped at before. */
  lemma {:induction false} ChunkingIsInvisible(c: Cache, a: string, b: string, attr: int, width: int, cap: nat)
    ensures AddTo(AddTo(c, a, attr, width, cap), b, attr, width, cap) == AddTo(c, a + b, attr, width, cap)
  {
    hide Canon, Appended, Paras;
    var ps := Paras(c.entries);
    EvictionCommutesWithAppend(Appended(ps, a, attr), b, attr, width, cap);
    AppendedConcat(ps, a, b, attr);
    if a == "" { NothingConcat(b); }
    if b == "" { ConcatNothing(a); }
  }

  // ---- What the paragraphs hold ----

  /** Paragraphs read in order: where each starts, and its characters, in its colour. */
  datatype Mark = Start(attr: int) | Glyph(c: char, attr: int)

  function Glyphs(raw: string, attr: int): seq<Mark> {
    if raw == "" then [] else Glyphs(raw[..|raw| - 1], attr) + [Glyph(raw[|raw| - 1], attr)]
  }

  function Written(ps: seq<Para>): seq<Mark> {
    if ps == [] then []
    else Written(ps[..|ps| - 1]) + ([Start(ps[|ps| - 1].attr)] + Glyphs(ps[|ps| - 1].raw, ps[|ps| - 1].attr))
  }

  /** What appended text should come to: a newline starts a paragraph, any other character is itself, all in the
      colour of the text. */
  function MarksOf(text: string, attr: int): seq<Mark> {
    if text == "" then []
    else
      var c := text[|text| - 1];
      MarksOf(text[..|text| - 1], attr) + [if c == '\n' then Start(attr) else Glyph(c, attr)]
  }

  /** The colour of the last piece that is not empty. */
  function LastColour(pieces: seq<Piece>): Option<int> {
    if pieces == [] then None
    else if pieces[|pieces| - 1].text != "" then Some(pieces[|pieces| - 1].attr)
    else LastColour(pieces[..|pieces| - 1])
  }

  /** A piece that is not empty also starts a paragraph if its colour is not that of the one before it. */
  function MarksOfAll(pieces: seq<Piece>): seq<Mark> {
    if pieces == [] then []
    else
      var before, last := pieces[..|pieces| - 1], pieces[|pieces| - 1];
      MarksOfAll(before)
      + if last.text == "" then []
        else (if LastColour(before) == Some(last.attr) then [] else [Start(last.attr)]) + MarksOf(last.text, last.attr)
  }

  lemma {:induction false} WrittenSnoc(ps: seq<Para>, p: Para)
    ensures Written(ps + [p]) == Written(ps) + ([Start(p.attr)] + Glyphs(p.raw, p.attr))
  {
    hide Glyphs;
    InitOfSnoc(ps, p);
  }

  lemma {:induction false} GlyphsSnoc(raw: string, c: char, attr: int)
    ensures Glyphs(raw + [c], attr) == Glyphs(raw, attr) + [Glyph(c, attr)]
  {
    InitOfSnoc(raw, c);
  }

  /** One more character of the last paragraph. */
  lemma {:induction false} WrittenGrows(front: seq<Para>, raw: string, c: char, attr: int)
    ensures Written(front + [Para(raw + [c], attr)]) == Written(front + [Para(raw, attr)]) + [Glyph(c, attr)]
  {
    hide Written, Glyphs;
    WrittenSnoc(front, Para(raw + [c], attr));
    WrittenSnoc(front, Para(raw, attr));
    GlyphsSnoc(raw, c, attr);
    ConcatAssociates([Start(attr)], Glyphs(raw, attr), [Glyph(c, attr)]);
    ConcatAssociates(Written(front), [Start(attr)] + Glyphs(raw, attr), [Glyph(c, attr)]);
  }

  lemma {:induction false} WrittenStarts(ps: seq<Para>, attr: int)
    ensures Written(ps + [Para("", attr)]) == Written(ps) + [Start(attr)]
  {
    hide Written;
    WrittenSnoc(ps, Para("", attr));
    ConcatNothing([Start(attr)]);
  }

  /** What one more character of the text does to the paragraphs. */
  lemma {:induction false} ContinueGrown(ps: seq<Para>, pieces: seq<string>, c: char, attr: int)
    requires |pieces| > 0
    ensures var before := Continue(ps, pieces, attr);
            && before != [] && before[|before| - 1].attr == attr
            && Continue(ps, Grown(pieces, c), attr)
               == if c == '\n' then before + [Para("", attr)]
                  else before[..|before| - 1] + [Para(before[|before| - 1].raw + [c], attr)]
  {
    var init, last := pieces[..|pieces| - 1], pieces[|pieces| - 1];
    SnocSplit(pieces);
    if c == '\n' {
      NewPiece(ps, pieces, "", attr);
      ContinueEnds(ps, init, last, attr);
    } else {
      ContinueEnds(ps, init, last, attr);
      ContinueEnds(ps, init, last + [c], attr);
      hide Continue;
      if init == [] && ps != [] && ps[|ps| - 1].attr == attr {
        ConcatAssociates(ps[|ps| - 1].raw, last, [c]);
      }
    }
  }

  /** The last piece ends the last paragraph. */
  lemma {:induction false} ContinueEnds(ps: seq<Para>, init: seq<string>, last: string, attr: int)
    ensures var merged := init == [] && ps != [] && ps[|ps| - 1].attr == attr;
            var front := if init != [] then Continue(ps, init, attr) else if merged then ps[..|ps| - 1] else ps;
            Continue(ps, init + [last], attr)
            == front + [Para(if merged then ps[|ps| - 1].raw + last else last, attr)]
  {
    if init != [] {
      NewPiece(ps, init, last, attr);
    } else {
      NothingConcat([last]);
      assert Fresh([last], attr) == [Para(last, attr)];
      if ps != [] && ps[|ps| - 1].attr == attr {
        ConcatNothing(ps[..|ps| - 1] + [Para(ps[|ps| - 1].raw + last, attr)]);
      }
    }
  }

  lemma {:induction false} NewPiece(ps: seq<Para>, pieces: seq<string>, last: string, attr: int)
    requires pieces != []
    ensures Continue(ps, pieces + [last], attr) == Continue(ps, pieces, attr) + [Para(last, attr)]
  {
    hide Continue;
    ContinueSnoc(ps, pieces + [last], |pieces|, attr);
    assert (pieces + [last])[..|pieces|] == pieces && (pieces + [last])[..|pieces| + 1] == pieces + [last];
  }

  lemma {:induction false} ContinueWrites(ps: seq<Para>, text: string, attr: int)
    ensures Written(Continue(ps, Paragraphs(text), attr))
            == Written(ps) + ((if ps != [] && ps[|ps| - 1].attr == attr then [] else [Start(attr)]) + MarksOf(text, attr))
  {
    hide Written, Continue;
    var start := if ps != [] && ps[|ps| - 1].attr == attr then [] else [Start(attr)];
    if text == "" {
      ContinueEnds(ps, [], "", attr);
      NothingConcat([""]);
      ConcatNothing(start);
      if start == [] {
        ConcatNothing(ps[|ps| - 1].raw);
        ConcatNothing(Written(ps));
        SnocSplit(ps);
      } else {
        WrittenStarts(ps, attr);
      }
    } else {
      var init, c := text[..|text| - 1], text[|text| - 1];
      hide Paragraphs;
      assert Paragraphs(text) == Grown(Paragraphs(init), c) by { ParagraphsSnoc(text); }
      ContinueWrites(ps, init, attr);
      ContinueGrown(ps, Paragraphs(init), c, attr);
      var before := Continue(ps, Paragraphs(init), attr);
      SnocSplit(before);
      if c == '\n' {
        WrittenStarts(before, attr);
      } else {
        WrittenGrows(before[..|before| - 1], before[|before| - 1].raw, c, attr);
      }
      var mark := [if c == '\n' then Start(attr) else Glyph(c, attr)];
      ConcatAssociates(Written(ps), start + MarksOf(init, attr), mark);
      ConcatAssociates(start, MarksOf(init, attr), mark);
    }
  }

  lemma {:induction false} ParagraphsSnoc(text: string)
    requires text != ""
    ensures Paragraphs(text) == Grown(Paragraphs(text[..|text| - 1]), text[|text| - 1])
  {
    hide Grown;
  }

  /** Appending text adds exactly its characters in its own colour, with a new paragraph at each newline, and one
      more in front of it if the last paragraph has another colour or there is none. */
  lemma {:induction false} AppendWrites(ps: seq<Para>, text: string, attr: int)
    ensures Written(Appended(ps, text, attr))
            == if text == "" then Written(ps)
               else Written(ps) + ((if ps != [] && ps[|ps| - 1].attr == attr then [] else [Start(attr)]) + MarksOf(text, attr))
    ensures text != "" ==>
              var after := Appended(ps, text, attr); after != [] && after[|after| - 1].attr == attr
  {
    hide Written, Continue, MarksOf, Paragraphs;
    if text != "" {
      ContinueWrites(ps, text, attr);
      ParagraphsSnoc(text);
      ContinueGrown(ps, Paragraphs(text[..|text| - 1]), text[|text| - 1], attr);
    }
  }

  lemma {:induction false} LastColourIs(pieces: seq<Piece>)
    ensures var ps := Log(pieces);
            LastColour(pieces) == if ps == [] then None else Some(ps[|ps| - 1].attr)
  {
    hide Appended;
    if pieces != [] {
      var before, last := pieces[..|pieces| - 1], pieces[|pieces| - 1];
      LastColourIs(before);
      AppendWrites(Log(before), last.text, last.attr);
      NothingAppended(Log(before), last.attr);
    }
  }

  lemma {:induction false} NothingAppended(ps: seq<Para>, attr: int)
    ensures Appended(ps, "", attr) == ps
  {
    hide Continue;
  }

  /** Whatever is appended in whatever colours, the paragraphs hold exactly the characters that were appended, in
      order and each in its own colour, and a paragraph starts exactly at each newline, at the first piece that
      is not empty and at each change of colour. */
  lemma {:induction false} LogIsWritten(pieces: seq<Piece>)
    ensures Written(Log(pieces)) == MarksOfAll(pieces)
  {
    hide Written, Appended, MarksOf, LastColour;
    if pieces == [] {
      NothingWritten();
    } else {
      var before, last := pieces[..|pieces| - 1], pieces[|pieces| - 1];
      LogIsWritten(before);
      LastColourIs(before);
      AppendWrites(Log(before), last.text, last.attr);
      if last.text == "" { ConcatNothing(MarksOfAll(before)); }
    }
  }

  lemma {:induction false} NothingWritten()
    ensures Written([]) == []
  {
  }

  /** The characters in the rows that are not spaces, in the colours they are shown in. */
  function RowInk(rows: seq<Row>): seq<Mark> {
    if rows == [] then [] else RowInk(rows[..|rows| - 1]) + Glyphs(Ink(rows[|rows| - 1].text), rows[|rows| - 1].attr)
  }

  /** The characters that are not spaces. */
  function MarkInk(marks: seq<Mark>): seq<Mark> {
    if marks == [] then []
    else
      var last := marks[|marks| - 1];
      MarkInk(marks[..|marks| - 1]) + if last.Glyph? && last.c != ' ' then [last] else []
  }

  lemma {:induction false} MarkInkConcat(a: seq<Mark>, b: seq<Mark>)
    ensures MarkInk(a + b) == MarkInk(a) + MarkInk(b)
  {
    if b == [] {
      ConcatNothing(a);
      ConcatNothing(MarkInk(a));
    } else {
      var last := b[|b| - 1];
      SnocOfConcat(a, b);
      MarkInkConcat(a, b[..|b| - 1]);
      ConcatAssociates(MarkInk(a), MarkInk(b[..|b| - 1]), if last.Glyph? && last.c != ' ' then [last] else []);
    }
  }

  lemma {:induction false} RowInkConcat(a: seq<Row>, b: seq<Row>)
    ensures RowInk(a + b) == RowInk(a) + RowInk(b)
  {
    hide Glyphs, Ink;
    if b == [] {
      ConcatNothing(a);
      ConcatNothing(RowInk(a));
    } else {
      SnocOfConcat(a, b);
      RowInkConcat(a, b[..|b| - 1]);
      ConcatAssociates(RowInk(a), RowInk(b[..|b| - 1]), Glyphs(Ink(b[|b| - 1].text), b[|b| - 1].attr));
    }
  }

  lemma {:induction false} GlyphsConcat(a: string, b: string, attr: int)
    ensures Glyphs(a + b, attr) == Glyphs(a, attr) + Glyphs(b, attr)
  {
    if b == "" {
      ConcatNothing(a);
      ConcatNothing(Glyphs(a, attr));
    } else {
      SnocOfConcat(a, b);
      GlyphsConcat(a, b[..|b| - 1], attr);
      ConcatAssociates(Glyphs(a, attr), Glyphs(b[..|b| - 1], attr), [Glyph(b[|b| - 1], attr)]);
    }
  }

  lemma {:induction false} InkOfGlyphs(raw: string, attr: int)
    ensures MarkInk(Glyphs(raw, attr)) == Glyphs(Ink(raw), attr)
  {
    if raw != "" {
      var init, c := raw[..|raw| - 1], raw[|raw| - 1];
      InkOfGlyphs(init, attr);
      InitOfSnoc(Glyphs(init, attr), Glyph(c, attr));
      if c == ' ' {
        ConcatNothing(MarkInk(Glyphs(init, attr)));
        ConcatNothing(Ink(init));
      } else {
        GlyphsSnoc(Ink(init), c, attr);
      }
    }
  }

  /** Rows of one colour show the ink of their texts in it. */
  lemma {:induction false} StyledShows(lines: seq<string>, attr: int)
    ensures RowInk(Styled(lines, attr)) == Glyphs(Ink(Concat(lines)), attr)
  {
    hide Glyphs, Ink;
    if lines == [] {
      NoInk();
      NoGlyphs(attr);
    } else {
      var init, last := lines[..|lines| - 1], lines[|lines| - 1];
      StyledShows(init, attr);
      assert Styled(lines, attr)[..|lines| - 1] == Styled(init, attr);
      InkAppend(Concat(init), last);
      GlyphsConcat(Ink(Concat(init)), Ink(last), attr);
    }
  }

  lemma {:induction false} NoGlyphs(attr: int)
    ensures Glyphs("", attr) == []
  {
  }

  lemma {:induction false} StartIsNoInk(attr: int)
    ensures MarkInk([Start(attr)]) == []
  {
  }

  lemma {:induction false} RowsShow(ps: seq<Para>, width: int)
    ensures RowInk(AllRows(ps, width)) == MarkInk(Written(ps))
  {
    hide Glyphs, Ink, AllRows, MarkInk, Wrap, Styled, Concat, RowInk;
    if ps == [] {
      NothingShown(width);
    } else {
      var init, last := ps[..|ps| - 1], ps[|ps| - 1];
      SnocSplit(ps);
      RowsShow(init, width);
      AllRowsConcat(init, [last], width);
      OnePara(last, width);
      RowInkConcat(AllRows(init, width), RowsOf(last, width));
      StyledShows(Wrap(last.raw, width), last.attr);
      WrapKeepsInk(last.raw, width);
      InkOfGlyphs(last.raw, last.attr);
      MarkInkConcat([Start(last.attr)], Glyphs(last.raw, last.attr));
      MarkInkConcat(Written(init), [Start(last.attr)] + Glyphs(last.raw, last.attr));
      StartIsNoInk(last.attr);
      NothingConcat(Glyphs(Ink(last.raw), last.attr));
    }
  }

  lemma {:induction false} NothingShown(width: int)
    ensures RowInk(AllRows([], width)) == [] && MarkInk(Written([])) == []
  {
  }

  /** A panel shows the last rows of all rows, and these show exactly the characters that were appended, but for
      spaces, in order and each in its own colour. */
  lemma {:induction false} PanelShows(pieces: seq<Piece>, width: int, cap: nat)
    ensures var all := AllRows(Log(pieces), width);
            && After(pieces, width, cap).rows == (if cap > 0 && |all| > cap then all[|all| - cap..] else all)
            && RowInk(all) == MarkInk(MarksOfAll(pieces))
  {
    hide AllRows, AllEntries, Evict, After, Log, MarksOfAll, Written, MarkInk, RowInk;
    EvictionIsInvisible(pieces, width, cap);
    LogIsWritten(pieces);
    RowsShow(Log(pieces), width);
  }

  // ---- What a canonical panel looks like ----

  /** The last `cap` rows, or all of them. */
  function LastRows(rows: seq<Row>, cap: nat): seq<Row> {
    rows[Excess(|rows|, cap)..]
  }

  lemma {:induction false} EntryAt(ps: seq<Para>, width: int, k: nat)
    requires k < |ps|
    ensures AllEntries(ps, width)[k] == EntryOf(ps[k], width)
  {
    hide EntryOf;
    if k > 0 { EntryAt(ps[1..], width, k - 1); }
  }

  lemma {:induction false} CutHeadEntries(ps: seq<Para>, width: int, drop: nat)
    requires drop == 0 || (ps != [] && drop < |RowsOf(ps[0], width)|)
    ensures var es, all := Evict(AllEntries(ps, width), drop), AllEntries(ps, width);
            && |es| == |all| && (forall k :: 1 <= k < |all| ==> es[k] == all[k])
            && (es != [] ==> es[0] == all[0].(rows := all[0].rows - drop))
  {
    hide RowsOf, Evict;
    if ps == [] {
      EvictNothing(0, 0);
    } else {
      EvictFront(EntryOf(ps[0], width), AllEntries(ps[1..], width), drop);
    }
  }

  /** The rows are the last rows of what the panel's own entries wrap to; the entries' counts add up to
      them; every entry counts all its rows, except that the front one may have lost some when the
      panel is full. */
  lemma {:induction false} CanonShape(ps: seq<Para>, width: int, cap: nat)
    ensures var c := Canon(ps, width, cap);
            && c.rows == LastRows(AllRows(Paras(c.entries), width), cap)
            && RowSum(c.entries) == |c.rows|
            && (cap > 0 ==> |c.rows| <= cap)
            && (forall k :: 1 <= k < |c.entries| ==> c.entries[k].rows == |Wrap(c.entries[k].raw, width)|)
            && (c.entries != [] ==>
                  var full := |Wrap(c.entries[0].raw, width)|;
                  0 < c.entries[0].rows <= full && (c.entries[0].rows < full ==> |c.rows| == cap))
  {
    hide AllRows, AllEntries, Evict, RowSum, Paras, Wrap, RowsOf;
    CanonIsStable(ps, width, cap);
    var drop := Excess(|AllRows(ps, width)|, cap);
    var gone, kept := EvictLeavesTail(ps, width, drop);
    EntriesOfParas(ps, width);
    EvictSum(AllEntries(ps, width), drop);
    CutHeadCounts(kept, width, drop - |AllRows(gone, width)|);
  }

  lemma {:induction false} CutHeadCounts(ps: seq<Para>, width: int, drop: nat)
    requires drop == 0 || (ps != [] && drop < |RowsOf(ps[0], width)|)
    ensures var es := Evict(AllEntries(ps, width), drop);
            && (forall k :: 1 <= k < |es| ==> es[k].rows == |Wrap(es[k].raw, width)|)
            && (es != [] ==> es[0].rows + drop == |Wrap(es[0].raw, width)| && es[0].rows > 0)
  {
    CutHeadEntries(ps, width, drop);
    forall k | 0 <= k < |ps| ensures AllEntries(ps, width)[k] == EntryOf(ps[k], width) {
      EntryAt(ps, width, k);
    }
  }

  // ---- The panel ----

  lemma {:induction false} PieceGrows(text: string, start: nat, i: nat, before: seq<string>)
    requires start <= i <= |text| && forall k :: start <= k < i ==> text[k] != '\n'
    requires Paragraphs(text[..start]) == before + [""]
    ensures Paragraphs(text[..i]) == before + [text[start..i]]
  {
    if start == i {
      assert text[start..i] == "";
    } else {
      PieceGrows(text, start, i - 1, before);
      SliceSnoc(text, start, i);
      SliceSnoc(text, 0, i);
      InitOfSnoc(text[..i - 1], text[i - 1]);
      InitOfSnoc(before, text[start..i - 1]);
    }
  }

  lemma {:induction false} PieceEnds(text: string, i: nat)
    requires i < |text| && text[i] == '\n'
    ensures Paragraphs(text[..i + 1]) == Paragraphs(text[..i]) + [""]
  {
    SliceSnoc(text, 0, i + 1);
    InitOfSnoc(text[..i], text[i]);
  }

  method FindNewline(text: string, start: nat) returns (pos: nat)
    requires start <= |text|
    ensures start <= pos <= |text| && forall k :: start <= k < pos ==> text[k] != '\n'
    ensures pos < |text| ==> text[pos] == '\n'
  {
    pos := start;
    while pos < |text| && text[pos] != '\n'
      invariant start <= pos <= |text| && forall k :: start <= k < pos ==> text[k] != '\n'
    {
      pos := pos + 1;
    }
  }

  method SplitParagraphs(text: string) returns (paragraphs: seq<string>)
    ensures paragraphs == Paragraphs(text)
  {
    paragraphs := [];
    var start := 0;
    NothingConcat([""]);
    while true
      invariant start <= |text|
      invariant Paragraphs(text[..start]) == paragraphs + [""]
      decreases |text| - start
    {
      hide Paragraphs;
      var pos := FindNewline(text, start);
      PieceGrows(text, start, pos, paragraphs);
      paragraphs := paragraphs + [text[start..pos]];
      if pos == |text| {
        SplitAt(text, pos);
        ConcatNothing(text[..pos]);
        return;
      }
      PieceEnds(text, pos);
      start := pos + 1;
    }
  }

  lemma {:induction false} OnePara(p: Para, width: int)
    ensures AllRows([p], width) == RowsOf(p, width) && AllEntries([p], width) == [EntryOf(p, width)]
  {
    hide RowsOf, EntryOf;
    ConcatNothing(RowsOf(p, width));
    ConcatNothing([EntryOf(p, width)]);
  }

  lemma {:induction false} AtSnoc(ps: seq<Para>, p: Para, width: int, drop: nat)
    requires drop <= |AllRows(ps, width)|
    requires drop < |AllRows(ps, width)| || drop == 0
    ensures drop <= |AllRows(ps + [p], width)|
    ensures At(ps + [p], width, drop).entries == At(ps, width, drop).entries + [EntryOf(p, width)]
    ensures At(ps + [p], width, drop).rows == At(ps, width, drop).rows + RowsOf(p, width)
  {
    hide AllRows, AllEntries, RowsOf, EntryOf;
    AllRowsConcat(ps, [p], width);
    OnePara(p, width);
    EntriesOfParas(ps, width);
    EvictConcat(AllEntries(ps, width), [EntryOf(p, width)], drop);
    DropInside(AllRows(ps, width), RowsOf(p, width), drop);
    if drop == 0 && RowSum(AllEntries(ps, width)) == 0 {
      RowSumPositive(AllEntries(ps, width));
      NothingConcat([EntryOf(p, width)]);
    }
  }

  lemma {:induction false} AllGone(front: seq<Para>, width: int)
    ensures At(front, width, |AllRows(front, width)|) == Cache([], [])
  {
    hide AllRows, AllEntries, Evict, RowSum;
    EntriesOfParas(front, width);
    EvictConcat(AllEntries(front, width), [], |AllRows(front, width)|);
    ConcatNothing(AllEntries(front, width));
    EvictNothing(0, 0);
  }

  /** A cut that reaches the last paragraph leaves nothing else. */
  lemma {:induction false} CutLast(front: seq<Para>, last: Para, width: int, cut: nat)
    requires cut < |RowsOf(last, width)|
    ensures var drop := |AllRows(front, width)| + cut;
            && drop < |AllRows(front + [last], width)|
            && At(front + [last], width, drop)
               == Cache([EntryOf(last, width).(rows := |RowsOf(last, width)| - cut)], RowsOf(last, width)[cut..])
  {
    hide AllRows, AllEntries, Evict, RowSum, RowsOf;
    var drop := |AllRows(front, width)| + cut;
    AllRowsConcat(front, [last], width);
    OnePara(last, width);
    EntriesOfParas(front, width);
    EvictConcat(AllEntries(front, width), [EntryOf(last, width)], drop);
    EvictFront(EntryOf(last, width), [], cut);
    ConcatNothing([EntryOf(last, width)]);
    ConcatNothing([EntryOf(last, width).(rows := |RowsOf(last, width)| - cut)]);
    DropOfConcat(AllRows(front, width), RowsOf(last, width), drop);
  }

  /** The last entry's rows are the last rows; without them the earlier paragraphs are left, unless the
      cut reaches into the last entry itself. */
  lemma {:induction false} AtLast(front: seq<Para>, last: Para, width: int, drop: nat) returns (less: nat)
    requires drop < |AllRows(front + [last], width)|
    ensures less == if drop < |AllRows(front, width)| then drop else |AllRows(front, width)|
    ensures var c := At(front + [last], width, drop);
            && c.entries != [] && c.entries[|c.entries| - 1].raw == last.raw && c.entries[|c.entries| - 1].attr == last.attr
            && 0 < c.entries[|c.entries| - 1].rows <= |c.rows|
            && c.entries[..|c.entries| - 1] == At(front, width, less).entries
            && c.rows[..|c.rows| - c.entries[|c.entries| - 1].rows] == At(front, width, less).rows
  {
    hide AllRows, AllEntries, At, RowsOf;
    var f, r := AllRows(front, width), RowsOf(last, width);
    AllRowsConcat(front, [last], width);
    OnePara(last, width);
    if drop < |f| {
      less := drop;
      AtSnoc(front, last, width, drop);
    } else {
      less := |f|;
      AllGone(front, width);
      CutLast(front, last, width, drop - |f|);
    }
  }

  /** The same, for a grown last entry put back at the end. */
  lemma {:induction false} AtGrown(front: seq<Para>, grown: Para, width: int, less: nat)
    requires less <= |AllRows(front, width)|
    ensures less <= |AllRows(front + [grown], width)|
    ensures At(front + [grown], width, less).entries == At(front, width, less).entries + [EntryOf(grown, width)]
    ensures At(front + [grown], width, less).rows == At(front, width, less).rows + RowsOf(grown, width)
  {
    hide AllRows, AllEntries, At, RowsOf;
    if less < |AllRows(front, width)| || less == 0 {
      AtSnoc(front, grown, width, less);
    } else {
      AllGone(front, width);
      CutLast(front, grown, width, 0);
      NothingConcat([EntryOf(grown, width)]);
      NothingConcat(RowsOf(grown, width));
    }
  }

  lemma {:induction false} NothingWrapped(ps: seq<Para>, width: int)
    ensures AllRows(ps[..0], width) == [] && AllEntries(ps[..0], width) == []
    ensures ps[0..] == ps && ps[..|ps|] == ps
  {
    assert ps[..0] == [];
  }

  /** What the last eviction still has to take. */
  lemma {:induction false} FinishesCanon(ps: seq<Para>, width: int, drop: nat, cap: nat)
    requires drop <= |AllRows(ps, width)| && drop <= Excess(|AllRows(ps, width)|, cap)
    ensures var c := At(ps, width, drop);
            && Positive(c.entries) && RowSum(c.entries) == |c.rows|
            && var rest := Excess(|c.rows|, cap);
               Cache(Evict(c.entries, rest), c.rows[rest..]) == Canon(ps, width, cap)
  {
    hide AllRows, AllEntries, Evict, RowSum, Positive;
    EntriesOfParas(ps, width);
    EvictSum(AllEntries(ps, width), drop);
    var rest := Excess(|AllRows(ps, width)| - drop, cap);
    EvictTwice(AllEntries(ps, width), drop, rest);
    DropDrop(AllRows(ps, width), drop, rest);
  }

  /** Where a view lands when rows go from the front: it stays on its row, unless it follows the bottom. */
  function Shifted(top: int, pinned: bool, dropped: nat): int {
    if pinned || top <= 0 then top else if top < dropped then 0 else top - dropped
  }

  /** One row off the front. */
  lemma {:induction false} EvictOne(es: seq<Entry>, dropped: nat)
    requires Positive(es) && dropped < RowSum(es)
    ensures var now := Evict(es, dropped);
            && now != [] && now[0].rows > 0 && RowSum(now) == RowSum(es) - dropped
            && Evict(es, dropped + 1) == if now[0].rows <= 1 then now[1..] else [now[0].(rows := now[0].rows - 1)] + now[1..]
  {
    hide Evict;
    var now := Evict(es, dropped);
    EvictSum(es, dropped);
    EvictTwice(es, dropped, 1);
    assert now != [];
    EvictFront(now[0], now[1..], 1);
    assert now == [now[0]] + now[1..];
    if now[0].rows <= 1 { EvictZero(now[1..]); }
  }

  lemma {:induction false} EvictZero(es: seq<Entry>)
    ensures Evict(es, 0) == es
  {
  }

  lemma {:induction false} RewrapStep(ps: seq<Para>, rest: seq<Entry>, width: int)
    requires 0 < |rest| <= |ps| && Paras(rest) == ps[|ps| - |rest|..]
    ensures var j := |ps| - |rest|;
            && Paras(rest[1..]) == ps[j + 1..]
            && AllEntries(ps[..j + 1], width)
               == AllEntries(ps[..j], width) + [Entry(rest[0].raw, rest[0].attr, |Wrap(rest[0].raw, width)|)]
            && AllRows(ps[..j + 1], width)
               == AllRows(ps[..j], width) + Styled(Wrap(rest[0].raw, width), rest[0].attr)
  {
    var j := |ps| - |rest|;
    var p := Para(rest[0].raw, rest[0].attr);
    TailOfConcat([p], Paras(rest[1..]));
    NothingConcat(Paras(rest[1..]));
    DropDrop(ps, j, 1);
    assert ps[j..][0] == ps[j];
    SliceSnoc(ps, 0, j + 1);
    AtSnoc(ps[..j], p, width, 0);
  }

  class TextPanel {
    var entries: seq<Entry>
    var wrappedLines: seq<Row>
    var wrapWidth: int
    var scrollTopLine: int
    var pinnedToBottom: bool
    const maxWrappedLines: nat

    ghost function Contents(): Cache
      reads this
    {
      Cache(entries, wrappedLines)
    }

    /** The cache is what building it from the panel's own entries gives. */
    ghost predicate Valid()
      reads this
    {
      Contents() == Canon(Paras(entries), wrapWidth, maxWrappedLines)
    }

    constructor (maxLines: nat)
      ensures Valid() && Contents() == Cache([], []) && wrapWidth == 0
      ensures scrollTopLine == 0 && pinnedToBottom && maxWrappedLines == maxLines
    {
      entries, wrappedLines := [], [];
      wrapWidth, scrollTopLine, pinnedToBottom := 0, 0, true;
      maxWrappedLines := maxLines;
    }

    /** Drops rows from the front until the limit holds.  A view that is not pinned stays on its row. */
    method EvictToCap()
      requires Positive(entries) && RowSum(entries) == |wrappedLines|
      modifies this`entries, this`wrappedLines, this`scrollTopLine
      ensures var drop := Excess(|old(wrappedLines)|, maxWrappedLines);
              && Contents() == Cache(Evict(old(entries), drop), old(wrappedLines)[drop..])
              && scrollTopLine == Shifted(old(scrollTopLine), pinnedToBottom, drop)
      ensures var drop := Excess(|old(wrappedLines)|, maxWrappedLines);
              !pinnedToBottom && drop <= old(scrollTopLine) < |old(wrappedLines)| ==>
                wrappedLines[scrollTopLine] == old(wrappedLines)[old(scrollTopLine)]
    {
      hide Evict, RowSum, Positive;
      ghost var dropped := 0;
      ghost var es, rows := entries, wrappedLines;
      EvictZero(es);
      if maxWrappedLines == 0 { return; }
      if |wrappedLines| > maxWrappedLines { EvictOne(es, 0); }
      while |wrappedLines| > maxWrappedLines && entries != []
        invariant 0 <= dropped <= Excess(|rows|, maxWrappedLines)
        invariant wrappedLines == rows[dropped..] && entries == Evict(es, dropped)
        invariant |wrappedLines| > maxWrappedLines ==> entries != []
        invariant scrollTopLine == Shifted(old(scrollTopLine), pinnedToBottom, dropped)
        decreases |wrappedLines|
      {
        EvictOne(es, dropped);
        DropDrop(rows, dropped, 1);
        wrappedLines := wrappedLines[1..];
        if !pinnedToBottom && scrollTopLine > 0 { scrollTopLine := scrollTopLine - 1; }
        if entries[0].rows <= 1 {
          entries := entries[1..];
        } else {
          entries := [entries[0].(rows := entries[0].rows - 1)] + entries[1..];
        }
        dropped := dropped + 1;
        if |wrappedLines| > maxWrappedLines { EvictOne(es, dropped); }
      }
    }

    /** Wraps everything the panel still holds again, at a new width. */
    method Rewrap(newWidth: int)
      modifies this`entries, this`wrappedLines, this`wrapWidth, this`scrollTopLine
      ensures Contents() == Canon(Paras(old(entries)), newWidth, maxWrappedLines)
      ensures Valid() && wrapWidth == newWidth
    {
      ghost var ps := Paras(entries);
      wrapWidth := newWidth;
      RewrapEntries(newWidth);
      EntriesOfParas(ps, newWidth);
      EvictToCap();
      CanonIsStable(ps, newWidth, maxWrappedLines);
    }

    /** Wraps and counts every entry from its text alone. */
    method RewrapEntries(width: int)
      modifies this`entries, this`wrappedLines
      ensures entries == AllEntries(Paras(old(entries)), width)
      ensures wrappedLines == AllRows(Paras(old(entries)), width)
    {
      hide AllRows, AllEntries, Wrap, Paras, Styled;
      wrappedLines := [];
      var done, rest := [], entries;
      ghost var ps := Paras(entries);
      NothingWrapped(ps, width);
      while rest != []
        invariant |rest| <= |ps| && Paras(rest) == ps[|ps| - |rest|..]
        invariant done == AllEntries(ps[..|ps| - |rest|], width)
        invariant wrappedLines == AllRows(ps[..|ps| - |rest|], width)
      {
        var e := rest[0];
        var lines := WordWrap(e.raw, width);
        RewrapStep(ps, rest, width);
        done := done + [Entry(e.raw, e.attr, |lines|)];
        wrappedLines := wrappedLines + Styled(lines, e.attr);
        rest := rest[1..];
      }
      entries := done;
    }

    /** Takes the last entry's rows off the end, wraps its longer text and puts those rows there. */
    method MergeIntoLast(para: string, width: int, ghost front: seq<Para>, ghost last: Para, ghost drop: nat)
        returns (ghost less: nat)
      requires drop < |AllRows(front + [last], width)|
      requires Contents() == At(front + [last], width, drop)
      modifies this`entries, this`wrappedLines
      ensures less <= drop && less <= |AllRows(front, width)| <= |AllRows(front + [Para(last.raw + para, last.attr)], width)|
      ensures Contents() == At(front + [Para(last.raw + para, last.attr)], width, less)
    {
      hide At, AllRows, Wrap, Styled;
      less := AtLast(front, last, width, drop);
      NonEmptyRows(front, Para(last.raw + para, last.attr), width);
      AtGrown(front, Para(last.raw + para, last.attr), width, less);
      var e := entries[|entries| - 1];
      DropLastRows(e.rows);
      var lines := WordWrap(e.raw + para, width);
      entries := entries[..|entries| - 1] + [Entry(e.raw + para, e.attr, |lines|)];
      wrappedLines := wrappedLines + Styled(lines, e.attr);
    }

    method DropLastRows(n: nat)
      requires n <= |wrappedLines|
      modifies this`wrappedLines
      ensures wrappedLines == old(wrappedLines)[..|old(wrappedLines)| - n]
    {
      for i := 0 to n
        invariant wrappedLines == old(wrappedLines)[..|old(wrappedLines)| - i]
      {
        if wrappedLines != [] { wrappedLines := wrappedLines[..|wrappedLines| - 1]; }
      }
    }

    method StartEntry(para: string, attr: int, width: int, ghost ps: seq<Para>, ghost drop: nat)
      requires drop <= |AllRows(ps, width)| && (drop < |AllRows(ps, width)| || drop == 0)
      requires Contents() == At(ps, width, drop)
      modifies this`entries, this`wrappedLines
      ensures drop <= |AllRows(ps + [Para(para, attr)], width)|
      ensures Contents() == At(ps + [Para(para, attr)], width, drop)
    {
      AtSnoc(ps, Para(para, attr), width, drop);
      var lines := WordWrap(para, width);
      wrappedLines := wrappedLines + Styled(lines, attr);
      entries := entries + [Entry(para, attr, |lines|)];
    }

    /** Appends text: the first piece goes on with the last entry when the colours match, every
        newline starts a new entry, and rows over the limit go from the front. */
    method Append(text: string, attr: int, width: int)
      requires Valid()
      modifies this`entries, this`wrappedLines, this`wrapWidth, this`scrollTopLine
      ensures Valid()
      ensures text == "" ==> Contents() == old(Contents()) && wrapWidth == old(wrapWidth)
      ensures text != "" ==> wrapWidth == width
      ensures text != "" ==>
                Contents() == Canon(Appended(Paras(old(entries)), text, attr), width, maxWrappedLines)
    {
      hide Canon, AllRows, Appended, Continue, Paras, Holds;
      if text == "" { return; }
      if width != wrapWidth { Rewrap(width); }
      ghost var ps := Paras(entries);
      EvictionCommutesWithAppend(Paras(old(entries)), text, attr, width, maxWrappedLines);
      assert Contents() == Canon(ps, width, maxWrappedLines) && Canon(Appended(ps, text, attr), width, maxWrappedLines)
          == Canon(Appended(Paras(old(entries)), text, attr), width, maxWrappedLines);

      var paragraphs := SplitParagraphs(text);
      ghost var drop := AddParagraphs(paragraphs, attr, width, ps);
      AppendedGrows(ps, text, attr, width);
      AppendedIs(ps, text, attr);
      FinishEviction(Appended(ps, text, attr), width, drop);
      CanonIsStable(Appended(ps, text, attr), width, maxWrappedLines);
    }

    /** The entries and rows of some paragraphs, with the first `drop` rows already gone. */
    ghost predicate Holds(ps: seq<Para>, width: int, drop: nat)
      reads this
    {
      && drop <= |AllRows(ps, width)|
      && (drop == 0 || drop < |AllRows(ps, width)|)
      && Contents() == At(ps, width, drop)
    }

    lemma {:induction false} CanonHolds(ps: seq<Para>, width: int)
      requires Contents() == Canon(ps, width, maxWrappedLines)
      ensures Holds(ps, width, Excess(|AllRows(ps, width)|, maxWrappedLines))
    {
      hide AllRows, AllEntries, Evict;
    }

    lemma {:induction false} HoldsIs(ps: seq<Para>, width: int, drop: nat)
      requires Holds(ps, width, drop)
      ensures drop <= |AllRows(ps, width)| && Contents() == At(ps, width, drop)
    {
      hide At, AllRows;
    }

    /** One turn of the loop over the paragraphs. */
    method AddParagraph(first: bool, para: string, attr: int, width: int, ghost ps: seq<Para>, ghost drop: nat)
        returns (ghost less: nat)
      requires Holds(ps, width, drop) && (first ==> ps == Paras(entries))
      modifies this`entries, this`wrappedLines
      ensures less <= drop
      ensures Holds(if first then Continue(ps, [para], attr) else ps + [Para(para, attr)], width, less)
    {
      LastPara(entries);
      var merge := first && entries != [] && entries[|entries| - 1].attr == attr;
      if merge {
        SnocSplit(ps);
        less := MergeIntoLast(para, width, ps[..|ps| - 1], ps[|ps| - 1], drop);
        NonEmptyRows(ps[..|ps| - 1], Para(ps[|ps| - 1].raw + para, attr), width);
        ConcatNothing(ps[..|ps| - 1] + [Para(ps[|ps| - 1].raw + para, attr)]);
      } else {
        StartEntry(para, attr, width, ps, drop);
        NonEmptyRows(ps, Para(para, attr), width);
        less := drop;
        assert Fresh([para], attr) == [Para(para, attr)];
      }
    }

    method AddParagraphs(paragraphs: seq<string>, attr: int, width: int, ghost ps: seq<Para>)
        returns (ghost drop: nat)
      requires paragraphs != [] && ps == Paras(entries) && Contents() == Canon(ps, width, maxWrappedLines)
      modifies this`entries, this`wrappedLines
      ensures drop <= Excess(|AllRows(ps, width)|, maxWrappedLines)
      ensures Holds(Continue(ps, paragraphs, attr), width, drop)
    {
      hide Holds, Continue, AllRows, Paras, Canon;
      drop := Excess(|AllRows(ps, width)|, maxWrappedLines);
      CanonHolds(ps, width);
      drop := AddParagraph(true, paragraphs[0], attr, width, ps, drop);
      assert paragraphs[..1] == [paragraphs[0]];
      for p := 1 to |paragraphs|
        invariant drop <= Excess(|AllRows(ps, width)|, maxWrappedLines)
        invariant Holds(Continue(ps, paragraphs[..p], attr), width, drop)
      {
        ContinueSnoc(ps, paragraphs, p, attr);
        drop := AddParagraph(false, paragraphs[p], attr, width, Continue(ps, paragraphs[..p], attr), drop);
      }
      assert paragraphs[..|paragraphs|] == paragraphs;
    }

    method FinishEviction(ghost ps: seq<Para>, ghost width: int, ghost drop: nat)
      requires Holds(ps, width, drop) && drop <= Excess(|AllRows(ps, width)|, maxWrappedLines)
      modifies this`entries, this`wrappedLines, this`scrollTopLine
      ensures Contents() == Canon(ps, width, maxWrappedLines)
    {
      hide At, AllRows, Canon, Evict, RowSum, Positive;
      HoldsIs(ps, width, drop);
      FinishesCanon(ps, width, drop, maxWrappedLines);
      EvictToCap();
    }

    // ---- Scrolling ----

    /** The first row shown when the view is at the very bottom. */
    function MaxTop(viewport: int): (top: nat)
      reads this
      ensures top == 0 || top + viewport == |wrappedLines|
    {
      if |wrappedLines| > viewport && |wrappedLines| - viewport >= 0 then |wrappedLines| - viewport else 0
    }

    method ClampScroll(viewport: int)
      modifies this`scrollTopLine
      ensures 0 <= scrollTopLine <= MaxTop(viewport)
      ensures pinnedToBottom ==> scrollTopLine == MaxTop(viewport)
      ensures !pinnedToBottom && 0 <= old(scrollTopLine) <= MaxTop(viewport) ==> scrollTopLine == old(scrollTopLine)
    {
      var maxTop := MaxTop(viewport);
      if pinnedToBottom {
        scrollTopLine := maxTop;
      } else {
        if scrollTopLine > maxTop { scrollTopLine := maxTop; }
        if scrollTopLine < 0 { scrollTopLine := 0; }
      }
    }

    /** Scrolling by some rows and back returns to the same row unless an end was hit; reaching the
        bottom is what pins the view. */
    method ScrollBy(delta: int, viewport: int)
      modifies this`scrollTopLine, this`pinnedToBottom
      ensures 0 <= scrollTopLine <= MaxTop(viewport)
      ensures pinnedToBottom <==> old(scrollTopLine) + delta >= MaxTop(viewport)
      ensures 0 <= old(scrollTopLine) + delta <= MaxTop(viewport) ==> scrollTopLine == old(scrollTopLine) + delta
      ensures pinnedToBottom ==> scrollTopLine == MaxTop(viewport)
    {
      var maxTop := MaxTop(viewport);
      var newTop := scrollTopLine + delta;
      if newTop >= maxTop {
        newTop := maxTop;
        pinnedToBottom := true;
      } else {
        pinnedToBottom := false;
      }
      if newTop < 0 { newTop := 0; }
      scrollTopLine := newTop;
    }
  }

  lemma {:induction false} NonEmptyRows(front: seq<Para>, p: Para, width: int)
    ensures |AllRows(front + [p], width)| > |AllRows(front, width)|
  {
    AllRowsConcat(front, [p], width);
    AllRowsConcat([p], [], width);
  }

  lemma {:induction false} LastPara(es: seq<Entry>)
    ensures forall k :: 0 <= k < |es| ==> Paras(es)[k] == Para(es[k].raw, es[k].attr)
  {
    if es != [] { LastPara(es[1..]); }
  }

  lemma {:induction false} ContinueSnoc(ps: seq<Para>, pieces: seq<string>, p: nat, attr: int)
    requires 0 < p < |pieces|
    ensures Continue(ps, pieces[..p + 1], attr) == Continue(ps, pieces[..p], attr) + [Para(pieces[p], attr)]
  {
    SliceSnoc(pieces, 0, p + 1);
    assert Fresh([pieces[p]], attr) == [Para(pieces[p], attr)];
    var front := pieces[..p];
    TailOfConcat(front, [pieces[p]]);
    FreshConcat(front[1..], [pieces[p]], attr);
    FreshConcat(front, [pieces[p]], attr);
    if ps != [] && ps[|ps| - 1].attr == attr {
      ConcatAssociates(ps[..|ps| - 1] + [Para(ps[|ps| - 1].raw + front[0], attr)], Fresh(front[1..], attr), [Para(pieces[p], attr)]);
    } else {
      ConcatAssociates(ps, Fresh(front, attr), [Para(pieces[p], attr)]);
    }
  }
}
