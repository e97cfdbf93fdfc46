/** How the input box breaks what is being typed (source/user_io.cpp): at newlines and at fixed widths,
    keeping every character, so that the cursor can be placed from the rows alone. */
module HardWrapping {
  import opened Sequences
  import L = LineStreams

  /** A segment without newlines: full rows and then one that is not full, perhaps empty. */
  function Chunks(segment: string, width: nat): (rows: seq<string>)
    requires width > 0
    ensures rows != []
    decreases |segment|
  {
    if |segment| < width then [segment] else [segment[..width]] + Chunks(segment[width..], width)
  }

  function Rows(text: string, width: nat): (rows: seq<string>)
    requires width > 0
    ensures rows != []
    decreases |text|
  {
    var k := L.Newline(text);
    if k == |text| then Chunks(text, width) else Chunks(text[..k], width) + Rows(text[k + 1..], width)
  }

  method HardWrap(text: string, width: int) returns (lines: seq<string>)
    ensures lines == if width <= 0 then [text] else Rows(text, width)
  {
    if width <= 0 { return [text]; }
    if text == "" { return [""]; }
    hide L.Newline, Chunks, Rows;
    lines := [];
    var start := 0;
    assert text[0..] == text;
    NothingConcat(Rows(text, width));
    while true
      invariant start <= |text| && lines + Rows(text[start..], width) == Rows(text, width)
      decreases |text| - start
    {
      var chunks, newline := WrapSegment(text, start, width);
      if newline == |text| {
        lines := lines + chunks;
        break;
      }
      ConcatAssociates(lines, chunks, Rows(text[newline + 1..], width));
      lines := lines + chunks;
      start := newline + 1;
    }
  }

  /** The rows of the segment that begins at `start`, and where it ends. */
  method WrapSegment(text: string, start: nat, width: nat) returns (chunks: seq<string>, newline: nat)
    requires width > 0 && start <= |text|
    ensures start <= newline <= |text|
    ensures newline == |text| ==> Rows(text[start..], width) == chunks
    ensures newline < |text| ==> Rows(text[start..], width) == chunks + Rows(text[newline + 1..], width)
  {
    hide L.Newline, Chunks, Rows;
    RowsFrom(text, start, width);
    newline := FindNewline(text, start);
    chunks := MakeChunks(text[start..newline], width);
  }

  method FindNewline(text: string, start: nat) returns (k: nat)
    requires start <= |text|
    ensures k == start + L.Newline(text[start..])
  {
    k := start;
    while k < |text| && text[k] != '\n'
      invariant start <= k <= |text| && forall j :: start <= j < k ==> text[j] != '\n'
    {
      k := k + 1;
    }
    assert forall j :: 0 <= j < k - start ==> text[start..][j] == text[start + j];
    L.NewlineIs(text[start..], k - start);
  }

  method MakeChunks(segment: string, width: nat) returns (rows: seq<string>)
    requires width > 0
    ensures rows == Chunks(segment, width)
  {
    if segment == "" { return [""]; }
    rows := [];
    var i := 0;
    assert segment[0..] == segment;
    NothingConcat(Chunks(segment, width));
    while i < |segment|
      invariant i <= |segment|
      invariant i < |segment| ==> rows + Chunks(segment[i..], width) == Chunks(segment, width)
      invariant i == |segment| ==>
                  rows != [] && Chunks(segment, width) == if |rows[|rows| - 1]| == width then rows + [""] else rows
    {
      ChunksFrom(segment, i, width);
      var next := if i + width < |segment| then i + width else |segment|;
      ConcatAssociates(rows, [segment[i..next]], Chunks(segment[next..], width));
      rows := rows + [segment[i..next]];
      i := next;
    }
    if |rows[|rows| - 1]| == width { rows := rows + [""]; }
  }

  lemma {:induction false} ChunksFrom(segment: string, i: nat, width: nat)
    requires width > 0 && i < |segment|
    ensures var next := if i + width < |segment| then i + width else |segment|;
            && (next - i == width ==> Chunks(segment[i..], width) == [segment[i..next]] + Chunks(segment[next..], width))
            && (next - i < width ==> next == |segment| && Chunks(segment[i..], width) == [segment[i..next]])
            && (next == |segment| ==> Chunks(segment[next..], width) == [""])
  {
    var next := if i + width < |segment| then i + width else |segment|;
    if next - i == width {
      assert segment[i..][..width] == segment[i..next] && segment[i..][width..] == segment[next..];
    } else {
      assert segment[i..] == segment[i..next];
    }
    assert next == |segment| ==> segment[next..] == "";
  }

  lemma {:induction false} RowsFrom(text: string, start: nat, width: nat)
    requires width > 0 && start <= |text|
    ensures var k := start + L.Newline(text[start..]);
            && k <= |text|
            && Rows(text[start..], width)
               == if k == |text| then Chunks(text[start..k], width) else Chunks(text[start..k], width) + Rows(text[k + 1..], width)
  {
    hide L.Newline, Chunks;
    var rest := text[start..];
    var k := L.Newline(rest);
    assert rest[..k] == text[start..start + k];
    if k < |rest| { assert rest[k + 1..] == text[start + k + 1..]; } else { assert rest[..k] == rest; }
  }

  // ---- Every character is kept ----

  /** Puts the rows together again: a full row goes on in the next one, any other ends at a newline. */
  function Unwrapped(rows: seq<string>, width: nat): string {
    if rows == [] then ""
    else if |rows| == 1 then rows[0]
    else if |rows[0]| == width then rows[0] + Unwrapped(rows[1..], width)
    else rows[0] + "\n" + Unwrapped(rows[1..], width)
  }

  lemma {:induction false} UnwrapChunks(segment: string, rest: seq<string>, width: nat)
    requires width > 0
    ensures Unwrapped(Chunks(segment, width) + rest, width)
            == if rest == [] then segment else segment + "\n" + Unwrapped(rest, width)
    decreases |segment|
  {
    if |segment| < width {
      assert ([segment] + rest)[1..] == rest;
    } else {
      var more := Chunks(segment[width..], width);
      ConcatAssociates([segment[..width]], more, rest);
      assert ([segment[..width]] + (more + rest))[1..] == more + rest;
      UnwrapChunks(segment[width..], rest, width);
      SplitAt(segment, width);
      ConcatAssociates(segment[..width], segment[width..] + "\n", Unwrapped(rest, width));
      ConcatAssociates(segment[..width], segment[width..], "\n");
    }
  }

  /** Wrapping loses nothing: the text can be read back from the rows. */
  lemma {:induction false} HardWrapRoundTrip(text: string, width: nat)
    requires width > 0
    ensures Unwrapped(Rows(text, width), width) == text
    decreases |text|
  {
    hide L.Newline, Chunks, Unwrapped;
    var k := L.Newline(text);
    if k == |text| {
      ConcatNothing(Chunks(text, width));
      UnwrapChunks(text, [], width);
    } else {
      HardWrapRoundTrip(text[k + 1..], width);
      UnwrapChunks(text[..k], Rows(text[k + 1..], width), width);
      assert text == text[..k] + "\n" + text[k + 1..];
    }
  }

  lemma {:induction false} ChunksFit(segment: string, width: nat)
    requires width > 0
    ensures forall j :: 0 <= j < |Chunks(segment, width)| ==> |Chunks(segment, width)[j]| <= width
    ensures |Chunks(segment, width)[|Chunks(segment, width)| - 1]| < width
    decreases |segment|
  {
    if |segment| >= width { ChunksFit(segment[width..], width); }
  }

  /** No row is wider than the box, and the last one always has room for the cursor. */
  lemma {:induction false} RowsFitBox(text: string, width: nat)
    requires width > 0
    ensures forall j :: 0 <= j < |Rows(text, width)| ==> |Rows(text, width)[j]| <= width
    ensures |Rows(text, width)[|Rows(text, width)| - 1]| < width
    decreases |text|
  {
    hide L.Newline, Chunks;
    var k := L.Newline(text);
    if k == |text| {
      ChunksFit(text, width);
    } else {
      ChunksFit(text[..k], width);
      RowsFitBox(text[k + 1..], width);
    }
  }
}
