/** Greedy word wrapping of one newline-free paragraph (`word_wrap`, source/user_io.cpp).

    `Wrap` says what the rows are, by recursion over the words of the paragraph;
    `WordWrap` is the loop of the program.  The lemmas say what the rows mean. */
module WordWrapping {
  import opened Sequences

  // ---- Words and rows ----

  /** The maximal runs of non-space characters of a text, in order. */
  function Tokens(s: string): (ts: seq<string>)
    ensures forall k :: 0 <= k < |ts| ==> |ts[k]| > 0
    ensures |s| > 0 && s[|s| - 1] != ' ' ==> |ts| > 0
  {
    if s == "" then []
    else
      var ts := Tokens(s[..|s| - 1]);
      var c := s[|s| - 1];
      if c == ' ' then ts
      else if |s| == 1 || s[|s| - 2] == ' ' then ts + [[c]]
      else ts[..|ts| - 1] + [ts[|ts| - 1] + [c]]
  }

  /** Finished rows and the row still being filled. */
  datatype Layout = Layout(lines: seq<string>, current: string) {
    function Flushed(): seq<string> {
      if current != "" then lines + [current] else lines
    }

    function Rows(): (rows: seq<string>)
      ensures |rows| > 0
    {
      if current != "" || lines == [] then lines + [current] else lines
    }
  }

  /** Puts one more word after a layout; a word longer than the row is cut in row-sized pieces. */
  function Place(l: Layout, token: string, width: int): Layout
    requires width > 0
    decreases |token|
  {
    if |token| > width then
      Place(Layout(l.Flushed() + [token[..width]], ""), token[width..], width)
    else if l.current == "" then Layout(l.lines, token)
    else if |l.current| + 1 + |token| <= width then Layout(l.lines, l.current + " " + token)
    else Layout(l.lines + [l.current], token)
  }

  function LayoutOf(ts: seq<string>, width: int): Layout
    requires width > 0
  {
    if ts == [] then Layout([], "")
    else Place(LayoutOf(ts[..|ts| - 1], width), ts[|ts| - 1], width)
  }

  /** The rows of a paragraph at a width; a width that is not positive means no wrapping. */
  function Wrap(paragraph: string, width: int): (rows: seq<string>)
    ensures |rows| > 0
  {
    if width <= 0 then [paragraph] else LayoutOf(Tokens(paragraph), width).Rows()
  }

  // ---- The program's loop ----

  lemma {:induction false} TokensOfSpace(s: string, i: nat)
    requires i < |s| && s[i] == ' '
    ensures Tokens(s[..i + 1]) == Tokens(s[..i])
  {
    assert s[..i + 1][..i] == s[..i];
  }

  /** How one more character changes the words of a text. */
  lemma {:induction false} TokensSnoc(s: string, c: char)
    ensures c == ' ' ==> Tokens(s + [c]) == Tokens(s)
    ensures c != ' ' && (s == "" || s[|s| - 1] == ' ') ==> Tokens(s + [c]) == Tokens(s) + [[c]]
    ensures c != ' ' && s != "" && s[|s| - 1] != ' ' ==>
              var ts := Tokens(s);
              ts != [] && Tokens(s + [c]) == ts[..|ts| - 1] + [ts[|ts| - 1] + [c]]
  {
    assert (s + [c])[..|s|] == s;
  }

  ghost predicate NoSpace(s: string, lo: nat, hi: nat)
    requires hi <= |s|
  {
    forall k :: lo <= k < hi ==> s[k] != ' '
  }

  /** A word grows character by character at the end of the text read so far. */
  lemma {:induction false} TokensOfWord(s: string, start: nat, i: nat)
    requires start < i <= |s|
    requires start == 0 || s[start - 1] == ' '
    requires NoSpace(s, start, i)
    ensures Tokens(s[..i]) == Tokens(s[..start]) + [s[start..i]]
  {
    hide Tokens;
    SliceSnoc(s, 0, i);
    TokensSnoc(s[..i - 1], s[i - 1]);
    if i == start + 1 {
      assert s[start..i] == [s[start]];
    } else {
      TokensOfWord(s, start, i - 1);
      SliceSnoc(s, start, i);
      InitOfSnoc(Tokens(s[..start]), s[start..i - 1]);
    }
  }

  /** The part of the loop that places one word. */
  method PlaceToken(lines0: seq<string>, current0: string, token0: string, width: int)
      returns (lines: seq<string>, current: string)
    requires width > 0
    ensures Layout(lines, current) == Place(Layout(lines0, current0), token0, width)
  {
    lines, current := lines0, current0;
    var token := token0;
    while |token| > width
      invariant Place(Layout(lines, current), token, width) == Place(Layout(lines0, current0), token0, width)
      decreases |token|
    {
      if current != "" {
        lines := lines + [current];
        current := "";
      }
      lines := lines + [token[..width]];
      token := token[width..];
    }
    if current == "" {
      current := token;
    } else if |current| + 1 + |token| <= width {
      current := current + " " + token;
    } else {
      lines := lines + [current];
      current := token;
    }
  }

  /** The layout of the text read so far. */
  ghost function LayoutBefore(s: string, i: nat, width: int): Layout
    requires width > 0 && i <= |s|
  {
    LayoutOf(Tokens(s[..i]), width)
  }

  lemma {:induction false} ReadSpaces(s: string, i: nat, j: nat, width: int)
    requires width > 0 && i <= j <= |s|
    requires forall k :: i <= k < j ==> s[k] == ' '
    ensures LayoutBefore(s, j, width) == LayoutBefore(s, i, width)
  {
    hide Tokens, LayoutOf;
    if i < j {
      ReadSpaces(s, i, j - 1, width);
      TokensOfSpace(s, j - 1);
    }
  }

  lemma {:induction false} ReadWord(s: string, start: nat, i: nat, width: int)
    requires width > 0 && start < i <= |s|
    requires start == 0 || s[start - 1] == ' '
    requires NoSpace(s, start, i)
    ensures LayoutBefore(s, i, width) == Place(LayoutBefore(s, start, width), s[start..i], width)
  {
    TokensOfWord(s, start, i);
    var ts := Tokens(s[..start]);
    assert (ts + [s[start..i]])[..|ts|] == ts;
  }

  lemma {:induction false} ReadEnds(s: string, width: int)
    requires width > 0
    ensures LayoutBefore(s, 0, width) == Layout([], "")
    ensures LayoutBefore(s, |s|, width).Rows() == Wrap(s, width)
    ensures s == "" ==> Wrap(s, width) == [""]
  {
    assert s[..0] == "" && s[..|s|] == s;
  }

  lemma {:induction false} NotWrapped(paragraph: string, width: int)
    requires width <= 0
    ensures Wrap(paragraph, width) == [paragraph]
  {
  }

  method SkipSpaces(s: string, from: nat) returns (i: nat)
    requires from <= |s|
    ensures from <= i <= |s| && forall k :: from <= k < i ==> s[k] == ' '
    ensures i < |s| ==> s[i] != ' '
  {
    i := from;
    while i < |s| && s[i] == ' '
      invariant from <= i <= |s| && forall k :: from <= k < i ==> s[k] == ' '
    {
      i := i + 1;
    }
  }

  method WordEnd(s: string, start: nat) returns (i: nat)
    requires start < |s| && s[start] != ' '
    ensures start < i <= |s| && NoSpace(s, start, i)
    ensures i < |s| ==> s[i] == ' '
  {
    i := start;
    while i < |s| && s[i] != ' '
      invariant start <= i <= |s| && NoSpace(s, start, i)
    {
      i := i + 1;
    }
  }

  method WordWrap(paragraph: string, width: int) returns (lines: seq<string>)
    ensures lines == Wrap(paragraph, width)
  {
    hide Tokens, LayoutOf, LayoutBefore, Place, Wrap, NoSpace;
    if width <= 0 {
      NotWrapped(paragraph, width);
      return [paragraph];
    }
    ReadEnds(paragraph, width);
    if paragraph == "" { return [""]; }

    lines := [];
    var current := "";
    var i, n := 0, |paragraph|;
    while i < n
      invariant 0 <= i <= n
      invariant Layout(lines, current) == LayoutBefore(paragraph, i, width)
      invariant 0 < i < n ==> paragraph[i] == ' '
    {
      var start := SkipSpaces(paragraph, i);
      ReadSpaces(paragraph, i, start, width);
      if start >= n {
        i := start;
        break;
      }
      i := WordEnd(paragraph, start);
      ReadWord(paragraph, start, i, width);
      lines, current := PlaceToken(lines, current, paragraph[start..i], width);
    }
    if current != "" || lines == [] { lines := lines + [current]; }
  }

  // ---- What every row is ----

  ghost predicate FitsRows(l: Layout, width: int) {
    && |l.current| <= width
    && forall k :: 0 <= k < |l.lines| ==> |l.lines[k]| <= width
  }

  lemma {:induction false} PlaceFits(l: Layout, token: string, width: int)
    requires width > 0 && FitsRows(l, width) && |token| > 0
    ensures FitsRows(Place(l, token, width), width)
    ensures Place(l, token, width).current != ""
    decreases |token|
  {
    if |token| > width {
      PlaceFits(Layout(l.Flushed() + [token[..width]], ""), token[width..], width);
    }
  }

  lemma {:induction false} LayoutFits(ts: seq<string>, width: int)
    requires width > 0 && forall k :: 0 <= k < |ts| ==> |ts[k]| > 0
    ensures FitsRows(LayoutOf(ts, width), width)
    ensures LayoutOf(ts, width).current == "" <==> ts == []
    ensures ts == [] ==> LayoutOf(ts, width).lines == []
  {
    if ts != [] {
      LayoutFits(ts[..|ts| - 1], width);
      PlaceFits(LayoutOf(ts[..|ts| - 1], width), ts[|ts| - 1], width);
    }
  }

  /** No row is wider than a positive width. */
  lemma {:induction false} RowsFit(paragraph: string, width: int)
    requires width > 0
    ensures forall k :: 0 <= k < |Wrap(paragraph, width)| ==> |Wrap(paragraph, width)[k]| <= width
  {
    LayoutFits(Tokens(paragraph), width);
  }

  // ---- Nothing but spaces is lost ----

  function Concat(rows: seq<string>): string {
    if rows == [] then "" else Concat(rows[..|rows| - 1]) + rows[|rows| - 1]
  }

  /** The characters of a text that are not spaces, in order. */
  function Ink(s: string): string {
    if s == "" then ""
    else Ink(s[..|s| - 1]) + (if s[|s| - 1] == ' ' then "" else [s[|s| - 1]])
  }

  lemma {:induction false} InkAppend(a: string, b: string)
    ensures Ink(a + b) == Ink(a) + Ink(b)
  {
    if b == "" {
      assert a + b == a;
    } else {
      InkAppend(a, b[..|b| - 1]);
      assert (a + b)[..|a + b| - 1] == a + b[..|b| - 1];
    }
  }

  lemma {:induction false} ConcatSnoc(rows: seq<string>, row: string)
    ensures Concat(rows + [row]) == Concat(rows) + row
  {
    assert (rows + [row])[..|rows|] == rows;
  }

  function InkOf(l: Layout): string { Ink(Concat(l.lines) + l.current) }

  /** Cutting one row-sized piece off a word loses nothing. */
  lemma {:induction false} CutKeepsInk(l: Layout, token: string, width: int)
    requires 0 < width < |token|
    ensures InkOf(Layout(l.Flushed() + [token[..width]], "")) + Ink(token[width..]) == InkOf(l) + Ink(token)
  {
    var text := Concat(l.lines) + l.current;
    var piece, rest := token[..width], token[width..];
    assert Concat(l.Flushed()) == text by {
      ConcatSnoc(l.lines, l.current);
      ConcatNothing(Concat(l.lines));
    }
    calc {
      InkOf(Layout(l.Flushed() + [piece], "")) + Ink(rest);
      { ConcatSnoc(l.Flushed(), piece); ConcatNothing(text + piece); }
      Ink(text + piece) + Ink(rest);
      { InkAppend(text + piece, rest); }
      Ink(text + piece + rest);
      { ConcatAssociates(text, piece, rest); SplitAt(token, width); }
      Ink(text + token);
      { InkAppend(text, token); }
      InkOf(l) + Ink(token);
    }
  }

  lemma {:induction false} SpaceKeepsInk(text: string, token: string)
    ensures Ink(text + (" " + token)) == Ink(text) + Ink(token)
  {
    InkAppend(text, " " + token);
    InkAppend(" ", token);
    assert Ink(" ") == "" by { assert " "[..0] == ""; }
  }

  lemma {:induction false} PlaceKeepsInk(l: Layout, token: string, width: int)
    requires width > 0
    ensures InkOf(Place(l, token, width)) == InkOf(l) + Ink(token)
    decreases |token|
  {
    if |token| > width {
      CutKeepsInk(l, token, width);
      PlaceKeepsInk(Layout(l.Flushed() + [token[..width]], ""), token[width..], width);
    } else if l.current == "" {
      assert Concat(l.lines) + "" == Concat(l.lines);
      InkAppend(Concat(l.lines), token);
    } else if |l.current| + 1 + |token| <= width {
      assert Concat(l.lines) + (l.current + " " + token) == Concat(l.lines) + l.current + (" " + token);
      SpaceKeepsInk(Concat(l.lines) + l.current, token);
    } else {
      ConcatSnoc(l.lines, l.current);
      InkAppend(Concat(l.lines) + l.current, token);
    }
  }

  lemma {:induction false} LayoutKeepsInk(ts: seq<string>, width: int)
    requires width > 0
    ensures InkOf(LayoutOf(ts, width)) == Ink(Concat(ts))
  {
    if ts != [] {
      var init, last := ts[..|ts| - 1], ts[|ts| - 1];
      LayoutKeepsInk(init, width);
      PlaceKeepsInk(LayoutOf(init, width), last, width);
      InkAppend(Concat(init), last);
    }
  }

  lemma {:induction false} InkSnoc(s: string, c: char)
    ensures Ink(s + [c]) == Ink(s) + if c == ' ' then "" else [c]
  {
    InitOfSnoc(s, c);
  }

  /** One more character goes on with the last word, or starts a new one. */
  lemma {:induction false} GrownWord(ts: seq<string>, c: char)
    ensures Concat(ts + [[c]]) == Concat(ts) + [c]
    ensures ts != [] ==> Concat(ts[..|ts| - 1] + [ts[|ts| - 1] + [c]]) == Concat(ts) + [c]
  {
    ConcatSnoc(ts, [c]);
    hide Concat;
    if ts != [] {
      var init, last := ts[..|ts| - 1], ts[|ts| - 1];
      ConcatSnoc(init, last + [c]);
      ConcatSnoc(init, last);
      SnocSplit(ts);
      ConcatAssociates(Concat(init), last, [c]);
    }
  }

  lemma {:induction false} TokensKeepInk(s: string)
    ensures Ink(Concat(Tokens(s))) == Ink(s)
  {
    hide Ink, Concat;
    if s == "" {
      NoInk();
    } else {
      var init, c := s[..|s| - 1], s[|s| - 1];
      TokensKeepInk(init);
      SnocSplit(s);
      InkSnoc(init, c);
      GrownWord(Tokens(init), c);
      InkSnoc(Concat(Tokens(init)), c);
      if c == ' ' { ConcatNothing(Ink(init)); }
    }
  }

  lemma {:induction false} NoInk()
    ensures Ink("") == "" && Concat([]) == ""
  {
  }

  /** Wrapping keeps every non-space character, in order. */
  lemma {:induction false} WrapKeepsInk(paragraph: string, width: int)
    ensures Ink(Concat(Wrap(paragraph, width))) == Ink(paragraph)
  {
    if width <= 0 {
      ConcatSnoc([], paragraph);
      assert [] + [paragraph] == [paragraph];
      assert Concat([]) + paragraph == paragraph;
    } else {
      var l := LayoutOf(Tokens(paragraph), width);
      LayoutKeepsInk(Tokens(paragraph), width);
      TokensKeepInk(paragraph);
      ConcatSnoc(l.lines, l.current);
      assert l.current == "" ==> Concat(l.lines) + l.current == Concat(l.lines);
    }
  }

  // ---- Stability: text that arrives later never touches a finished row ----

  /** `b` has the finished rows of `a` (all but its last) as its own first rows, and at least as many rows. */
  predicate Extends(a: seq<string>, b: seq<string>) {
    |a| > 0 && |b| >= |a| && a[..|a| - 1] == b[..|a| - 1]
  }

  /** Placing a word only ever adds rows after the finished ones. */
  lemma {:induction false} PlaceGrows(l: Layout, token: string, width: int)
    requires width > 0 && |token| > 0
    ensures l.lines <= Place(l, token, width).lines
    ensures Place(l, token, width).current != ""
    decreases |token|
  {
    if |token| > width {
      PlaceGrows(Layout(l.Flushed() + [token[..width]], ""), token[width..], width);
    }
  }

  /** A word that gains one more letter leaves the rows finished before its last piece alone. */
  lemma {:induction false} PlaceLonger(l: Layout, token: string, c: char, width: int)
    requires width > 0 && |token| > 0
    ensures Place(l, token, width).lines <= Place(l, token + [c], width).lines
    decreases |token|
  {
    var longer := token + [c];
    if |token| > width {
      var next := Layout(l.Flushed() + [token[..width]], "");
      assert longer[..width] == token[..width] && longer[width..] == token[width..] + [c];
      PlaceLonger(next, token[width..], c, width);
    } else if |longer| > width {
      PlaceGrows(Layout(l.Flushed() + [longer[..width]], ""), longer[width..], width);
    }
  }

  lemma {:induction false} LayoutSnoc(ts: seq<string>, token: string, width: int)
    requires width > 0
    ensures LayoutOf(ts + [token], width) == Place(LayoutOf(ts, width), token, width)
  {
    hide Place;
    InitOfSnoc(ts, token);
  }

  lemma {:induction false} RowsExtend(l: Layout, m: Layout)
    requires l.lines <= m.lines && m.current != "" && (l.current == "" ==> l.lines == [])
    ensures Extends(l.Rows(), m.Rows())
  {
  }

  lemma {:induction false} OneMoreCharacter(s: string, c: char, width: int)
    ensures Extends(Wrap(s, width), Wrap(s + [c], width))
  {
    hide Tokens, LayoutOf, Place, FitsRows;
    if width > 0 {
      var ts, t := Tokens(s), Tokens(s + [c]);
      TokensSnoc(s, c);
      LayoutFits(ts, width);
      if c != ' ' {
        if s == "" || s[|s| - 1] == ' ' {
          LayoutSnoc(ts, [c], width);
          PlaceGrows(LayoutOf(ts, width), [c], width);
        } else {
          var init, last := ts[..|ts| - 1], ts[|ts| - 1];
          SnocSplit(ts);
          LayoutSnoc(init, last, width);
          LayoutSnoc(init, last + [c], width);
          PlaceLonger(LayoutOf(init, width), last, c, width);
          LayoutFits(t, width);
        }
        RowsExtend(LayoutOf(ts, width), LayoutOf(t, width));
      }
    }
  }

  lemma {:induction false} ExtendsTransitive(x: seq<string>, y: seq<string>, z: seq<string>)
    requires Extends(x, y) && Extends(y, z)
    ensures Extends(x, z)
  {
    assert x[..|x| - 1] == y[..|y| - 1][..|x| - 1];
    assert z[..|x| - 1] == z[..|y| - 1][..|x| - 1];
  }

  /** Appending text to a paragraph never changes a finished row and never loses a row. */
  lemma {:induction false} AppendExtends(a: string, b: string, width: int)
    ensures Extends(Wrap(a, width), Wrap(a + b, width))
  {
    if b == "" {
      assert a + b == a;
    } else {
      var init := b[..|b| - 1];
      AppendExtends(a, init, width);
      OneMoreCharacter(a + init, b[|b| - 1], width);
      SnocSplit(b);
      ConcatAssociates(a, init, [b[|b| - 1]]);
      ExtendsTransitive(Wrap(a, width), Wrap(a + init, width), Wrap(a + b, width));
    }
  }

  // ---- What one more word does ----

  /** A word cut for rows of this width: every piece but the last fills a row. */
  ghost predicate Cut(word: string, pieces: seq<string>, width: int) {
    && pieces != [] && Concat(pieces) == word
    && (forall k :: 0 <= k < |pieces| - 1 ==> |pieces[k]| == width)
    && 0 < |pieces[|pieces| - 1]| <= width
  }

  lemma {:induction false} ConcatFirst(piece: string, rest: seq<string>)
    ensures Concat([piece] + rest) == piece + Concat(rest)
  {
    if rest == [] {
      ConcatNothing([piece]);
      ConcatNothing(piece);
      assert [piece][..0] == [];
      NothingConcat(piece);
    } else {
      var init, last := rest[..|rest| - 1], rest[|rest| - 1];
      SnocOfConcat([piece], rest);
      ConcatFirst(piece, init);
      ConcatAssociates(piece, Concat(init), last);
    }
  }

  /** A word that does not fit behind the current row begins a new one, cut if it is longer than a row. */
  lemma {:induction false} PlaceCuts(l: Layout, word: string, width: int) returns (pieces: seq<string>)
    requires width > 0 && word != "" && (l.current == "" || |word| > width || |l.current| + 1 + |word| > width)
    ensures Cut(word, pieces, width)
    ensures var after := Place(l, word, width); after.current != "" && after.lines + [after.current] == l.Flushed() + pieces
    decreases |word|
  {
    hide Place;
    if |word| <= width {
      PlaceShort(l, word, width);
      pieces := [word];
      OnePiece(word);
      if l.current == "" { NothingConcat([word]); }
    } else {
      var piece, rest := word[..width], word[width..];
      var next := Layout(l.Flushed() + [piece], "");
      PlaceLong(l, word, width);
      var others := PlaceCuts(next, rest, width);
      pieces := [piece] + others;
      ConcatFirst(piece, others);
      SplitAt(word, width);
      ConcatAssociates(l.Flushed(), [piece], others);
    }
  }

  lemma {:induction false} OnePiece(word: string)
    ensures Concat([word]) == word
  {
    assert [word][..0] == [];
    NothingConcat(word);
  }

  lemma {:induction false} PlaceShort(l: Layout, word: string, width: int)
    requires width > 0 && word != "" && |word| <= width
    ensures Place(l, word, width)
            == if l.current == "" then Layout(l.lines, word)
               else if |l.current| + 1 + |word| <= width then Layout(l.lines, l.current + " " + word)
               else Layout(l.lines + [l.current], word)
  {
  }

  lemma {:induction false} PlaceLong(l: Layout, word: string, width: int)
    requires width > 0 && |word| > width
    ensures Place(l, word, width) == Place(Layout(l.Flushed() + [word[..width]], ""), word[width..], width)
  {
  }

  lemma {:induction false} MoreTokens(text: string, word: string)
    requires word != "" && (forall k :: 0 <= k < |word| ==> word[k] != ' ') && (text == "" || text[|text| - 1] == ' ')
    ensures Tokens(text + word) == Tokens(text) + [word]
  {
    hide Tokens;
    var s := text + word;
    assert s[..|text|] == text && s[|text|..|s|] == word && s[..|s|] == s;
    TokensOfWord(s, |text|, |s|);
  }

  /** Spaces at the end show only behind nothing but spaces, and there as nothing. */
  lemma {:induction false} SpacesDoNotShow(text: string, width: int)
    requires width > 0
    ensures Wrap(text + " ", width) == Wrap(text, width)
    ensures Wrap("", width) == [""]
  {
    TokensSnoc(text, ' ');
    assert Tokens("") == [];
    hide Tokens;
  }

  /** One more word goes behind the last row if it fits there; otherwise it begins a new row, cut into full rows if it
      is too long for one.  The first word has the rows to itself. */
  lemma {:induction false} OneMoreWord(text: string, word: string, width: int) returns (pieces: seq<string>)
    requires width > 0 && word != "" && (forall k :: 0 <= k < |word| ==> word[k] != ' ')
    requires text == "" || text[|text| - 1] == ' '
    ensures Cut(word, pieces, width)
    ensures var rows, after := Wrap(text, width), Wrap(text + word, width);
            var last := rows[|rows| - 1];
            if forall k :: 0 <= k < |text| ==> text[k] == ' ' then after == pieces
            else if |word| <= width && |last| + 1 + |word| <= width then after == rows[..|rows| - 1] + [last + " " + word]
            else after == rows + pieces
  {
    hide Tokens, LayoutOf, Place, FitsRows, Cut, Concat;
    var l := LayoutOf(Tokens(text), width);
    MoreTokens(text, word);
    LayoutSnoc(Tokens(text), word, width);
    LayoutFits(Tokens(text), width);
    BlankHasNoTokens(text);
    if l.current != "" && |l.current| + 1 + |word| <= width {
      PlaceShort(l, word, width);
      pieces := [word];
      OnePiece(word);
      CutOne(word, width);
    } else {
      pieces := PlaceCuts(l, word, width);
      if l.current == "" { NothingConcat(pieces); }
    }
  }

  lemma {:induction false} CutOne(word: string, width: int)
    requires word != "" && |word| <= width
    ensures Cut(word, [word], width)
  {
    OnePiece(word);
  }

  lemma {:induction false} BlankHasNoTokens(text: string)
    ensures Tokens(text) == [] <==> forall k :: 0 <= k < |text| ==> text[k] == ' '
  {
    if text != "" {
      BlankHasNoTokens(text[..|text| - 1]);
    }
  }

  // ---- Greedy is optimal ----

  function Join(words: seq<string>): string
    requires words != []
  {
    if |words| == 1 then words[0] else Join(words[..|words| - 1]) + " " + words[|words| - 1]
  }

  function Flatten(groups: seq<seq<string>>): seq<string> {
    if groups == [] then [] else Flatten(groups[..|groups| - 1]) + groups[|groups| - 1]
  }

  /** Some way to break the words into rows, in order, every row no wider than the width. */
  ghost predicate IsBreaking(groups: seq<seq<string>>, ts: seq<string>, width: int) {
    && Flatten(groups) == ts
    && forall k :: 0 <= k < |groups| ==> groups[k] != [] && |Join(groups[k])| <= width
  }

  function Joined(groups: seq<seq<string>>): (rows: seq<string>)
    requires forall k :: 0 <= k < |groups| ==> groups[k] != []
    ensures |rows| == |groups| && forall k :: 0 <= k < |groups| ==> rows[k] == Join(groups[k])
  {
    if groups == [] then [] else Joined(groups[..|groups| - 1]) + [Join(groups[|groups| - 1])]
  }

  ghost predicate TokensFit(ts: seq<string>, width: int) {
    forall k :: 0 <= k < |ts| ==> 0 < |ts[k]| <= width
  }

  lemma {:induction false} FlattenSnoc(groups: seq<seq<string>>, g: seq<string>)
    ensures Flatten(groups + [g]) == Flatten(groups) + g
  {
    assert (groups + [g])[..|groups|] == groups;
  }

  lemma {:induction false} JoinSnoc(g: seq<string>, word: string)
    requires g != []
    ensures Join(g + [word]) == Join(g) + " " + word
  {
    assert (g + [word])[..|g|] == g;
  }

  /** When every word fits, the rows are themselves a breaking of the words. */
  lemma {:induction false} GreedyBreaks(ts: seq<string>, width: int) returns (groups: seq<seq<string>>)
    requires width > 0 && ts != [] && TokensFit(ts, width)
    ensures IsBreaking(groups, ts, width) && groups != []
    ensures Joined(groups) == LayoutOf(ts, width).Rows()
  {
    var init, last := ts[..|ts| - 1], ts[|ts| - 1];
    SnocSplit(ts);
    var l := LayoutOf(init, width);
    LayoutFits(init, width);
    if init == [] {
      groups := OneMoreGroup([], init, last, width);
    } else {
      var before := GreedyBreaks(init, width);
      if |l.current| + 1 + |last| <= width {
        groups := ExtendLastGroup(before, l, init, last, width);
      } else {
        groups := OneMoreGroup(before, init, last, width);
      }
    }
  }

  lemma {:induction false} OneMoreGroup(before: seq<seq<string>>, init: seq<string>, last: string, width: int)
      returns (groups: seq<seq<string>>)
    requires IsBreaking(before, init, width) && |last| <= width
    ensures IsBreaking(groups, init + [last], width) && groups != []
    ensures Joined(groups) == Joined(before) + [last]
  {
    groups := before + [[last]];
    InitOfSnoc(before, [last]);
  }

  lemma {:induction false} ExtendLastGroup(before: seq<seq<string>>, l: Layout, init: seq<string>, last: string,
      width: int)
      returns (groups: seq<seq<string>>)
    requires before != [] && IsBreaking(before, init, width)
    requires Joined(before) == l.lines + [l.current]
    requires |l.current| + 1 + |last| <= width
    ensures IsBreaking(groups, init + [last], width) && groups != []
    ensures Joined(groups) == l.lines + [l.current + " " + last]
  {
    var front, g := before[..|before| - 1], before[|before| - 1];
    assert before == front + [g];
    FlattenSnoc(front, g);
    FlattenSnoc(front, g + [last]);
    assert Joined(before)[|before| - 1] == Join(g) == l.current;
    JoinSnoc(g, last);
    groups := front + [g + [last]];
    assert Flatten(front) + (g + [last]) == Flatten(before) + [last];
    forall k | 0 <= k < |front|
      ensures groups[k] != [] && |Join(groups[k])| <= width && Join(groups[k]) == l.lines[k]
    {
      assert groups[k] == before[k];
      assert Joined(before)[k] == (l.lines + [l.current])[k];
    }
    assert |front| == |l.lines|;
  }

  lemma {:induction false} JoinOne(word: string)
    ensures Join([word]) == word
  {
  }

  /** The words of the last row of a breaking end with the last word. */
  lemma {:induction false} LastGroup(groups: seq<seq<string>>, init: seq<string>, last: string, width: int)
    requires IsBreaking(groups, init + [last], width)
    ensures groups != []
    ensures var front, g := groups[..|groups| - 1], groups[|groups| - 1];
            if g == [last] then IsBreaking(front, init, width)
            else
              var h := g[..|g| - 1];
              && h != [] && g == h + [last]
              && (|Join(h)| <= width ==> IsBreaking(front + [h], init, width))
  {
    hide Join;
    var front, g := groups[..|groups| - 1], groups[|groups| - 1];
    SnocSplit(groups);
    SnocSplit(g);
    FlattenSnoc(front, g);
    SnocOfConcat(Flatten(front), g);
    InitOfSnoc(init, last);
    if |g| == 1 {
      ConcatNothing(Flatten(front));
    } else {
      FlattenSnoc(front, g[..|g| - 1]);
    }
  }

  /** Any other breaking has at least as many rows, and on a tie a last row at least as wide. */
  lemma {:induction false} GreedyIsAhead(groups: seq<seq<string>>, ts: seq<string>, width: int)
    requires width > 0 && ts != [] && TokensFit(ts, width)
    requires IsBreaking(groups, ts, width)
    ensures groups != []
    ensures var l := LayoutOf(ts, width);
            |l.lines| + 1 < |groups|
            || (|l.lines| + 1 == |groups| && |l.current| <= |Join(groups[|groups| - 1])|)
    decreases |ts|
  {
    hide LayoutOf, Join, Flatten, IsBreaking, FitsRows;
    var init, last := ts[..|ts| - 1], ts[|ts| - 1];
    SnocSplit(ts);
    LayoutSnoc(init, last, width);
    LayoutFits(init, width);
    LastGroup(groups, init, last, width);
    JoinOne(last);
    var front, g := groups[..|groups| - 1], groups[|groups| - 1];
    if g == [last] {
      if init == [] { NothingToBreak(front, width); } else { GreedyIsAhead(front, init, width); }
    } else {
      var h := g[..|g| - 1];
      JoinSnoc(h, last);
      RowFits(groups, ts, width);
      if init == [] { NothingToBreak(front + [h], width); } else { GreedyIsAhead(front + [h], init, width); }
    }
  }

  lemma {:induction false} RowFits(groups: seq<seq<string>>, ts: seq<string>, width: int)
    requires IsBreaking(groups, ts, width) && groups != []
    ensures |Join(groups[|groups| - 1])| <= width
  {
    hide Join, Flatten;
  }

  lemma {:induction false} NothingToBreak(groups: seq<seq<string>>, width: int)
    requires IsBreaking(groups, [], width)
    ensures groups == []
  {
    hide Join;
  }

  /** If every word fits the width, no in-order breaking of the words uses fewer rows than wrapping does. */
  lemma {:induction false} WrapIsMinimal(paragraph: string, groups: seq<seq<string>>, width: int)
    requires width > 0 && Tokens(paragraph) != [] && TokensFit(Tokens(paragraph), width)
    requires IsBreaking(groups, Tokens(paragraph), width)
    ensures |Wrap(paragraph, width)| <= |groups|
    ensures exists own :: IsBreaking(own, Tokens(paragraph), width) && Joined(own) == Wrap(paragraph, width)
  {
    var ts := Tokens(paragraph);
    LayoutFits(ts, width);
    GreedyIsAhead(groups, ts, width);
    var own := GreedyBreaks(ts, width);
  }
}
