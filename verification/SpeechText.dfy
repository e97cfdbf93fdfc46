/** Text on its way to the speech synthesizer: emoji are taken out of the UTF-8 bytes, and what SSML would
    read as markup is escaped (source/stringthings.cpp). */
module SpeechText {
  import opened Sequences

  type Byte = b: int | 0 <= b < 256

  /** Unicode scalar values: code points that are no surrogates. */
  type Scalar = c: int | 0 <= c < 0x11_0000 && !(0xD800 <= c < 0xE000)

  predicate IsEmoji(c: int) {
    || 0x1F000 <= c <= 0x1FAFF
    || 0x2600 <= c <= 0x27BF
    || 0x2B00 <= c <= 0x2BFF
    || 0x2300 <= c <= 0x23FF
    || 0xFE00 <= c <= 0xFE0F
    || 0xE0020 <= c <= 0xE007F
    || c == 0x200D
    || c == 0x20E3
  }

  // ---- UTF-8 (section 3 of RFC 3629) ----

  function Encode(c: Scalar): (bytes: seq<Byte>)
    ensures 1 <= |bytes| <= 4
  {
    if c < 0x80 then [c]
    else if c < 0x800 then [0xC0 + c / 64, 0x80 + c % 64]
    else if c < 0x1_0000 then [0xE0 + c / 4096, 0x80 + c / 64 % 64, 0x80 + c % 64]
    else [0xF0 + c / 262144, 0x80 + c / 4096 % 64, 0x80 + c / 64 % 64, 0x80 + c % 64]
  }

  function EncodeAll(text: seq<Scalar>): seq<Byte> {
    if text == [] then [] else Encode(text[0]) + EncodeAll(text[1..])
  }

  function WithoutEmoji(text: seq<Scalar>): seq<Scalar> {
    if text == [] then [] else (if IsEmoji(text[0]) then [] else [text[0]]) + WithoutEmoji(text[1..])
  }

  // ---- The walk over the bytes ----

  /** How many bytes a sequence that begins like this should have; 1 for a byte that begins none. */
  function LengthOf(c: Byte): (len: nat)
    ensures 1 <= len <= 4
  {
    if c < 0x80 then 1 else if c / 32 == 0x6 then 2 else if c / 16 == 0xE then 3 else if c / 8 == 0x1E then 4 else 1
  }

  function LeadBits(c: Byte, len: nat): nat {
    if len == 2 then c % 32 else if len == 3 then c % 16 else c % 8
  }

  /** The code point the first `n` bytes of a sequence of `len` bytes spell. */
  function CodePoint(bytes: seq<Byte>, len: nat, n: nat): nat
    requires 1 <= n <= |bytes|
  {
    if n == 1 then LeadBits(bytes[0], len) else CodePoint(bytes, len, n - 1) * 64 + bytes[n - 1] % 64
  }

  /** How many bytes the walk takes first, and whether it keeps them. */
  function Taken(bytes: seq<Byte>): (len: nat)
    requires bytes != []
    ensures 1 <= len <= |bytes|
  {
    if LengthOf(bytes[0]) > |bytes| then 1 else LengthOf(bytes[0])
  }

  predicate Keeps(bytes: seq<Byte>)
    requires bytes != []
  {
    Taken(bytes) == 1 || !IsEmoji(CodePoint(bytes, Taken(bytes), Taken(bytes)))
  }

  function Stripped(bytes: seq<Byte>): seq<Byte> {
    if bytes == [] then []
    else
      var len := Taken(bytes);
      (if Keeps(bytes) then bytes[..len] else []) + Stripped(bytes[len..])
  }

  method ReadCodePoint(bytes: seq<Byte>, len: nat) returns (cp: nat)
    requires 2 <= len <= |bytes|
    ensures cp == CodePoint(bytes, len, len)
  {
    cp := LeadBits(bytes[0], len);
    for k := 1 to len
      invariant cp == CodePoint(bytes, len, k)
    {
      cp := cp * 64 + bytes[k] % 64;
    }
  }

  /** One round of the walk. */
  lemma {:induction false} StripNext(text: seq<Byte>, i: nat)
    requires i < |text|
    ensures var len := Taken(text[i..]);
            i + len <= |text|
            && Stripped(text[i..]) == (if Keeps(text[i..]) then text[i..i + len] else []) + Stripped(text[i + len..])
  {
    hide LengthOf, CodePoint;
    var len := Taken(text[i..]);
    assert text[i..][len..] == text[i + len..] && text[i..][..len] == text[i..i + len];
  }

  method StripEmoji(text: seq<Byte>) returns (out: seq<Byte>)
    ensures out == Stripped(text)
  {
    hide Stripped, CodePoint, IsEmoji;
    out := [];
    var i := 0;
    NothingConcat(Stripped(text));
    assert text[0..] == text;
    while i < |text|
      invariant i <= |text| && out + Stripped(text[i..]) == Stripped(text)
    {
      StripNext(text, i);
      var len := LengthOf(text[i]);
      if len == 1 || i + len > |text| {
        ConcatAssociates(out, text[i..i + 1], Stripped(text[i + 1..]));
        out := out + text[i..i + 1];
        i := i + 1;
      } else {
        var cp := ReadCodePoint(text[i..], len);
        if !IsEmoji(cp) {
          ConcatAssociates(out, text[i..i + len], Stripped(text[i + len..]));
          out := out + text[i..i + len];
        } else {
          NothingConcat(Stripped(text[i + len..]));
        }
        i := i + len;
      }
    }
    assert text[i..] == [];
    StripNothing();
    ConcatNothing(out);
  }

  lemma {:induction false} StripNothing()
    ensures Stripped([]) == []
  {
  }

  lemma {:induction false} LeadIsRead(c: Scalar)
    ensures LengthOf(Encode(c)[0]) == |Encode(c)|
  {
  }

  /** The walk reads back the code point that was encoded. */
  lemma {:induction false} EncodingIsRead(c: Scalar, bytes: seq<Byte>)
    requires |Encode(c)| <= |bytes| && bytes[..|Encode(c)|] == Encode(c)
    ensures Taken(bytes) == |Encode(c)|
    ensures |Encode(c)| > 1 ==> CodePoint(bytes, |Encode(c)|, |Encode(c)|) == c
    ensures |Encode(c)| == 1 ==> !IsEmoji(c)
  {
    var len := |Encode(c)|;
    LeadIsRead(c);
    assert forall k :: 0 <= k < len ==> bytes[k] == bytes[..len][k] == Encode(c)[k];
    if len > 1 {
      CodePointOf(bytes, len, Encode(c));
      EncodedCodePoint(c);
    }
  }

  lemma {:induction false} CodePointOf(bytes: seq<Byte>, n: nat, encoded: seq<Byte>)
    requires 1 <= n <= |encoded| <= |bytes| && forall k :: 0 <= k < n ==> bytes[k] == encoded[k]
    ensures CodePoint(bytes, |encoded|, n) == CodePoint(encoded, |encoded|, n)
  {
    if n > 1 { CodePointOf(bytes, n - 1, encoded); }
  }

  lemma {:induction false} LowBits(x: nat)
    ensures x < 64 ==> (0x80 + x) % 64 == x
    ensures x < 32 ==> (0xC0 + x) % 32 == x
    ensures x < 16 ==> (0xE0 + x) % 16 == x
    ensures x < 8 ==> (0xF0 + x) % 8 == x
  {
  }

  lemma {:induction false} SixBits(c: nat)
    ensures c / 64 * 64 + c % 64 == c
    ensures c / 4096 == c / 64 / 64 && c / 262144 == c / 4096 / 64
  {
  }

  lemma {:induction false} NextByte(bytes: seq<Byte>, len: nat, n: nat, x: nat)
    requires 1 < n <= |bytes| && x < 64 && bytes[n - 1] == 0x80 + x
    ensures CodePoint(bytes, len, n) == CodePoint(bytes, len, n - 1) * 64 + x
  {
    LowBits(x);
  }

  lemma {:induction false} EncodedInTwo(c: Scalar)
    requires 0x80 <= c < 0x800
    ensures CodePoint(Encode(c), 2, 2) == c
  {
    LowBits(c / 64);
    NextByte(Encode(c), 2, 2, c % 64);
  }

  lemma {:induction false} EncodedInThree(c: Scalar)
    requires 0x800 <= c < 0x1_0000
    ensures CodePoint(Encode(c), 3, 3) == c
  {
    LowBits(c / 4096);
    NextByte(Encode(c), 3, 2, c / 64 % 64);
    NextByte(Encode(c), 3, 3, c % 64);
    SixBits(c);
    SixBits(c / 64);
  }

  lemma {:induction false} EncodedInFour(c: Scalar)
    requires 0x1_0000 <= c
    ensures CodePoint(Encode(c), 4, 4) == c
  {
    LowBits(c / 262144);
    NextByte(Encode(c), 4, 2, c / 4096 % 64);
    NextByte(Encode(c), 4, 3, c / 64 % 64);
    NextByte(Encode(c), 4, 4, c % 64);
    SixBits(c);
    SixBits(c / 64);
    SixBits(c / 4096);
  }

  lemma {:induction false} EncodedCodePoint(c: Scalar)
    ensures |Encode(c)| > 1 ==> CodePoint(Encode(c), |Encode(c)|, |Encode(c)|) == c
  {
    hide CodePoint;
    if c < 0x80 {
    } else if c < 0x800 {
      EncodedInTwo(c);
    } else if c < 0x1_0000 {
      EncodedInThree(c);
    } else {
      EncodedInFour(c);
    }
  }

  lemma {:induction false} StripFirst(c: Scalar, rest: seq<Byte>)
    ensures Stripped(Encode(c) + rest) == (if IsEmoji(c) then [] else Encode(c)) + Stripped(rest)
  {
    var bytes := Encode(c) + rest;
    assert bytes[..|Encode(c)|] == Encode(c) && bytes[|Encode(c)|..] == rest;
    EncodingIsRead(c, bytes);
    hide Encode, CodePoint, LengthOf;
  }

  /** Taking the emoji out of the UTF-8 bytes of a text gives the UTF-8 bytes of the text without emoji. */
  lemma {:induction false} StripIsFilter(text: seq<Scalar>)
    ensures Stripped(EncodeAll(text)) == EncodeAll(WithoutEmoji(text))
  {
    if text != [] {
      hide Encode, IsEmoji, Stripped;
      var c, rest := text[0], text[1..];
      StripIsFilter(rest);
      StripFirst(c, EncodeAll(rest));
      if IsEmoji(c) {
        NothingConcat(WithoutEmoji(rest));
        NothingConcat(EncodeAll(WithoutEmoji(rest)));
      } else {
        assert ([c] + WithoutEmoji(rest))[1..] == WithoutEmoji(rest);
      }
    }
  }

  /** The code points that are read aloud. */
  predicate IsText(c: int) {
    || 0 <= c <= 0x200C || 0x200E <= c <= 0x20E2 || 0x20E4 <= c <= 0x22FF || 0x2400 <= c <= 0x25FF
    || 0x27C0 <= c <= 0x2AFF || 0x2C00 <= c <= 0xFDFF || 0xFE10 <= c <= 0x1_EFFF
    || 0x1_FB00 <= c <= 0xE_001F || 0xE_0080 <= c <= 0x10_FFFF
  }

  /** Text with these code points only comes out as it went in, and text with none of them comes out empty. */
  lemma {:induction false} TextIsRead(text: seq<Scalar>)
    ensures (forall k :: 0 <= k < |text| ==> IsText(text[k])) ==> Stripped(EncodeAll(text)) == EncodeAll(text)
    ensures (forall k :: 0 <= k < |text| ==> !IsText(text[k])) ==> Stripped(EncodeAll(text)) == []
  {
    StripIsFilter(text);
    FilterReads(text);
    hide Stripped, Encode;
  }

  lemma {:induction false} FilterReads(text: seq<Scalar>)
    ensures (forall k :: 0 <= k < |text| ==> IsText(text[k])) ==> WithoutEmoji(text) == text
    ensures (forall k :: 0 <= k < |text| ==> !IsText(text[k])) ==> WithoutEmoji(text) == []
  {
    if text != [] {
      FilterReads(text[1..]);
      assert text == [text[0]] + text[1..];
      assert IsText(text[0]) <==> !IsEmoji(text[0]);
    }
  }

  // ---- SSML ----

  function EscapedChar(c: char): string {
    if c == '&' then "&amp;" else if c == '<' then "&lt;" else if c == '>' then "&gt;" else [c]
  }

  function Escaped(text: string): string {
    if text == "" then "" else Escaped(text[..|text| - 1]) + EscapedChar(text[|text| - 1])
  }

  method SsmlEscape(text: string) returns (out: string)
    ensures out == Escaped(text)
  {
    out := "";
    for k := 0 to |text|
      invariant out == Escaped(text[..k])
    {
      assert text[..k + 1][..k] == text[..k];
      var c := text[k];
      if c == '&' {
        out := out + "&amp;";
      } else if c == '<' {
        out := out + "&lt;";
      } else if c == '>' {
        out := out + "&gt;";
      } else {
        out := out + [c];
      }
    }
    assert text[..|text|] == text;
  }

  /** What SSML reads: the three entities stand for their characters. */
  function Read(text: string): string {
    if text == "" then ""
    else if |text| >= 5 && text[..5] == "&amp;" then "&" + Read(text[5..])
    else if |text| >= 4 && text[..4] == "&lt;" then "<" + Read(text[4..])
    else if |text| >= 4 && text[..4] == "&gt;" then ">" + Read(text[4..])
    else [text[0]] + Read(text[1..])
  }

  lemma {:induction false} ReadFirst(c: char, rest: string)
    ensures Read(EscapedChar(c) + rest) == [c] + Read(rest)
  {
    var text := EscapedChar(c) + rest;
    if c == '&' {
      assert text[..5] == "&amp;" && text[5..] == rest;
    } else if c == '<' {
      assert text[..4] == "&lt;" && text[4..] == rest;
      assert text[1] == 'l';
      assert |text| >= 5 ==> text[..5][1] == 'l';
    } else if c == '>' {
      assert text[..4] == "&gt;" && text[4..] == rest;
      assert text[1] == 'g' && text[..4][1] == 'g';
      assert |text| >= 5 ==> text[..5][1] == 'g';
    } else {
      assert text[0] == c && text[1..] == rest;
      assert |text| >= 4 ==> text[..4][0] == c;
      assert |text| >= 5 ==> text[..5][0] == c;
    }
  }

  lemma {:induction false} EscapedSplits(a: string, b: string)
    ensures Escaped(a + b) == Escaped(a) + Escaped(b)
  {
    if b == "" {
      ConcatNothing(a);
      ConcatNothing(Escaped(a));
    } else {
      hide EscapedChar;
      SnocOfConcat(a, b);
      EscapedSplits(a, b[..|b| - 1]);
      ConcatAssociates(Escaped(a), Escaped(b[..|b| - 1]), EscapedChar(b[|b| - 1]));
    }
  }

  ghost predicate NoMarkup(text: string) {
    forall k :: 0 <= k < |text| ==> text[k] != '<' && text[k] != '>'
  }

  lemma {:induction false} EscapedHasNoMarkup(text: string)
    ensures NoMarkup(Escaped(text))
  {
    if text != "" {
      EscapedHasNoMarkup(text[..|text| - 1]);
      assert NoMarkup(EscapedChar(text[|text| - 1]));
      hide EscapedChar;
    }
  }

  /** Escaped text is read as the text it was, and no character of it can open a tag. */
  lemma {:induction false} EscapeRoundTrip(text: string)
    ensures Read(Escaped(text)) == text && NoMarkup(Escaped(text))
  {
    hide Escaped, EscapedChar, Read, NoMarkup;
    EscapedHasNoMarkup(text);
    if text == "" {
      ReadNothing();
    } else {
      var c, rest := text[0], text[1..];
      EscapeRoundTrip(rest);
      assert text == [c] + rest;
      EscapedSplits([c], rest);
      EscapedOne(c);
      ReadFirst(c, Escaped(rest));
    }
  }

  lemma {:induction false} ReadNothing()
    ensures Read(Escaped("")) == ""
  {
  }

  lemma {:induction false} EscapedOne(c: char)
    ensures Escaped([c]) == EscapedChar(c)
  {
    assert [c][..0] == "";
    hide EscapedChar;
    NothingConcat(EscapedChar(c));
  }
}
