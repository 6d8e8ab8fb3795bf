/** Cutting a message to the Telegram limit, which counts UTF-16 code units. */
module Telegram {
  /** A Unicode scalar value: no surrogate is one. */
  type Rune = r: int | 0 <= r < 0xD800 || 0xE000 <= r <= 0x10FFFF

  type Unit = u: int | 0 <= u <= 0xFFFF

  const MAX_TEXT_UNITS: nat := 4096
  const ELLIPSIS: Rune := 0x2026

  /** The units a character costs: a surrogate pair for anything past 0xFFFF (section 2.1
      of RFC 2781). */
  function RuneLen(r: Rune): nat { if r < 0x10000 then 1 else 2 }

  function EncodeRune(r: Rune): (units: seq<Unit>)
    ensures |units| == RuneLen(r)
  {
    if r < 0x10000 then [r]
    else [0xD800 + (r - 0x10000) / 0x400, 0xDC00 + (r - 0x10000) % 0x400]
  }

  function Encode(text: seq<Rune>): seq<Unit> {
    if text == [] then [] else Encode(text[..|text| - 1]) + EncodeRune(text[|text| - 1])
  }

  /** Decoding (section 2.2 of RFC 2781), from the end; ill-formed units stop it. */
  function Decode(units: seq<Unit>): (text: (bool, seq<Rune>)) {
    var n := |units|;
    if n == 0 then (true, [])
    else
      var last := units[n - 1];
      if last < 0xD800 || last >= 0xE000 then
        var rest := Decode(units[..n - 1]);
        (rest.0, rest.1 + [last])
      else if last >= 0xDC00 && n >= 2 && 0xD800 <= units[n - 2] < 0xDC00 then
        var rest := Decode(units[..n - 2]);
        (rest.0, rest.1 + [0x10000 + (units[n - 2] - 0xD800) * 0x400 + (last - 0xDC00)])
      else (false, [])
  }

  lemma DecodeOneMore(units: seq<Unit>, r: Rune)
    ensures Decode(units + EncodeRune(r)) == (Decode(units).0, Decode(units).1 + [r])
  {
    var longer, n := units + EncodeRune(r), |units|;
    if r < 0x10000 {
      assert longer[..n] == units && longer[n] == r;
    } else {
      var high, low := 0xD800 + (r - 0x10000) / 0x400, 0xDC00 + (r - 0x10000) % 0x400;
      assert longer[..n] == units && longer[n] == high && longer[n + 1] == low;
      assert 0x10000 + (high - 0xD800) * 0x400 + (low - 0xDC00) == r;
    }
  }

  /** No character is split: what was encoded decodes to itself. */
  lemma {:induction false} DecodeEncode(text: seq<Rune>)
    ensures Decode(Encode(text)) == (true, text)
  {
    hide Decode;
    if text == [] {
      DecodeNothing();
    } else {
      DecodeEncode(text[..|text| - 1]);
      DecodeOneMore(Encode(text[..|text| - 1]), text[|text| - 1]);
      assert text == text[..|text| - 1] + [text[|text| - 1]];
    }
  }

  /** A character is encoded as itself, or past 0xFFFF as a high and a low surrogate that share
      its bits. */
  lemma EncodedAs(r: Rune)
    ensures r < 0x10000 ==> EncodeRune(r) == [r]
    ensures r >= 0x10000 ==>
      var units := EncodeRune(r);
      && |units| == 2 && 0xD800 <= units[0] < 0xDC00 && 0xDC00 <= units[1] < 0xE000
      && var high: int, low: int := units[0], units[1];
         r == 0x10000 + (high - 0xD800) * 0x400 + (low - 0xDC00)
  {
  }

  lemma EncodeOneMore(text: seq<Rune>, r: Rune)
    ensures Encode(text + [r]) == Encode(text) + EncodeRune(r)
  {
    assert (text + [r])[..|text|] == text;
  }

  /** Decoding succeeds on nothing but encodings, and gives the text that was encoded. */
  lemma {:induction false} EncodeDecode(units: seq<Unit>)
    requires Decode(units).0
    ensures Encode(Decode(units).1) == units
  {
    hide Encode;
    var n := |units|;
    if n == 0 {
      EncodeNothing();
    } else if units[n - 1] < 0xD800 || units[n - 1] >= 0xE000 {
      EncodeDecode(units[..n - 1]);
      EncodeOneMore(Decode(units[..n - 1]).1, units[n - 1]);
    } else {
      EncodeDecode(units[..n - 2]);
      var high: int, low: int := units[n - 2], units[n - 1];
      var r: Rune := 0x10000 + (high - 0xD800) * 0x400 + (low - 0xDC00);
      EncodeOneMore(Decode(units[..n - 2]).1, r);
      assert EncodeRune(r) == [units[n - 2], units[n - 1]];
    }
  }

  lemma EncodeNothing()
    ensures Encode([]) == []
  {
  }

  lemma DecodeNothing()
    ensures Decode([]) == (true, [])
  {
  }

  /** The length of a text in code units. */
  function Units(text: seq<Rune>): nat {
    if text == [] then 0 else Units(text[..|text| - 1]) + RuneLen(text[|text| - 1])
  }

  lemma {:induction false} UnitsIsEncodedLength(text: seq<Rune>)
    ensures |Encode(text)| == Units(text)
  {
    if text != [] {
      UnitsIsEncodedLength(text[..|text| - 1]);
    }
  }

  lemma {:induction false} UnitsGrow(text: seq<Rune>, i: nat, j: nat)
    requires i <= j <= |text|
    ensures Units(text[..i]) + (j - i) <= Units(text[..j])
  {
    if i < j {
      UnitsGrow(text, i, j - 1);
      assert text[..j][..j - 1] == text[..j - 1];
    }
  }

  /** The longest prefix of whole characters that leaves room for the ellipsis. */
  ghost predicate LongestFit(text: seq<Rune>, k: nat) {
    && k <= |text|
    && Units(text[..k]) <= MAX_TEXT_UNITS - RuneLen(ELLIPSIS)
    && forall j :: k < j <= |text| ==> Units(text[..j]) > MAX_TEXT_UNITS - RuneLen(ELLIPSIS)
  }

  /** A text within the limit is kept; a longer one becomes its longest prefix that fits,
      and an ellipsis. */
  ghost predicate IsTruncation(text: seq<Rune>, r: seq<Rune>) {
    if Units(text) <= MAX_TEXT_UNITS then r == text
    else exists k: nat :: LongestFit(text, k) && k < |text| && r == text[..k] + [ELLIPSIS]
  }

  method TruncateTelegramText(text: seq<Rune>) returns (r: seq<Rune>)
    ensures IsTruncation(text, r)
  {
    UnitsIsEncodedLength(text);
    if |Encode(text)| <= MAX_TEXT_UNITS {
      return text;
    }
    var budget: int := MAX_TEXT_UNITS - RuneLen(ELLIPSIS);
    var b: seq<Rune> := [];
    assert text[..|text|] == text;
    var i := 0;
    while i < |text|
      invariant i <= |text| && b == text[..i]
      invariant budget >= 0 && Units(text[..i]) + budget == MAX_TEXT_UNITS - RuneLen(ELLIPSIS)
    {
      assert text[..i + 1][..i] == text[..i];
      var n := RuneLen(text[i]);
      if budget - n < 0 {
        break;
      }
      budget := budget - n;
      b := b + [text[i]];
      i := i + 1;
    }
    assert text[..i + 1][..i] == text[..i];
    forall j | i < j <= |text| ensures Units(text[..j]) > MAX_TEXT_UNITS - RuneLen(ELLIPSIS) {
      UnitsGrow(text, i + 1, j);
    }
    assert LongestFit(text, i);
    return b + [ELLIPSIS];
  }

  /** A text of at most 4096 UTF-16 units is kept; a longer one becomes one of 4095 or 4096.
      Truncating again changes nothing. */
  lemma TruncationFills(text: seq<Rune>, r: seq<Rune>)
    requires IsTruncation(text, r)
    ensures |Encode(text)| <= 4096 ==> r == text
    ensures |Encode(text)| > 4096 ==> |Encode(r)| in {4095, 4096}
    ensures Units(r) <= MAX_TEXT_UNITS && IsTruncation(r, r)
  {
    hide Encode;
    UnitsIsEncodedLength(r);
    UnitsIsEncodedLength(text);
    if Units(text) > MAX_TEXT_UNITS {
      var k: nat :| LongestFit(text, k) && k < |text| && r == text[..k] + [ELLIPSIS];
      assert r[..|r| - 1] == text[..k];
      assert k + 1 <= |text| && text[..k + 1][..k] == text[..k];
      assert Units(text[..k + 1]) > MAX_TEXT_UNITS - RuneLen(ELLIPSIS);
    }
  }

  /** There is only one truncation, so it is idempotent. */
  lemma TruncationIsUnique(text: seq<Rune>, r: seq<Rune>, s: seq<Rune>)
    requires IsTruncation(text, r) && (IsTruncation(text, s) || IsTruncation(r, s))
    ensures r == s
  {
    TruncationFills(text, r);
    if Units(text) > MAX_TEXT_UNITS && IsTruncation(text, s) {
      var j: nat :| LongestFit(text, j) && j < |text| && r == text[..j] + [ELLIPSIS];
      var k: nat :| LongestFit(text, k) && k < |text| && s == text[..k] + [ELLIPSIS];
      assert j == k;
    }
  }

  /** The cut text, once encoded, is a prefix of the original encoding and an ellipsis, and
      decodes to whole characters. */
  lemma {:induction false} EncodePrefix(text: seq<Rune>, k: nat)
    requires k <= |text|
    ensures Encode(text[..k]) <= Encode(text)
    decreases |text| - k
  {
    if k < |text| {
      EncodePrefix(text, k + 1);
      assert text[..k + 1][..k] == text[..k];
    } else {
      assert text[..k] == text;
    }
  }

  lemma TruncationEncodes(text: seq<Rune>, r: seq<Rune>)
    requires IsTruncation(text, r) && Units(text) > MAX_TEXT_UNITS
    ensures |Encode(r)| > 0 && Encode(r)[|Encode(r)| - 1] == ELLIPSIS
    ensures Encode(r)[..|Encode(r)| - 1] <= Encode(text)
    ensures Decode(Encode(r)) == (true, r)
  {
    var k: nat :| LongestFit(text, k) && k < |text| && r == text[..k] + [ELLIPSIS];
    assert r[..|r| - 1] == text[..k];
    EncodePrefix(text, k);
    DecodeEncode(r);
  }
}
