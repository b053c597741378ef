/** UTF-8 and JSON strings by their definitions: section 3 of RFC 3629 and section 7 of RFC 8259. */
module JsonText {

  import opened Wrappers

  type byte = b: int | 0 <= b < 256

  const QUOTE: byte := 0x22
  const BACKSLASH: byte := 0x5c
  const LETTER_U: byte := 0x75
  const REPLACEMENT := 0xfffd

  // ---- UTF-8 --------------------------------------------------------------------------------

  predicate Scalar(cp: int) { 0 <= cp < 0xd800 || 0xe000 <= cp < 0x110000 }

  function Encode(cp: int): seq<byte>
    requires Scalar(cp)
  {
    if cp < 0x80 then [cp]
    else if cp < 0x800 then [0xc0 + cp / 0x40, 0x80 + cp % 0x40]
    else if cp < 0x10000 then [0xe0 + cp / 0x1000, 0x80 + cp / 0x40 % 0x40, 0x80 + cp % 0x40]
    else [0xf0 + cp / 0x40000, 0x80 + cp / 0x1000 % 0x40, 0x80 + cp / 0x40 % 0x40, 0x80 + cp % 0x40]
  }

  predicate Begins(text: seq<byte>, cp: int) { Scalar(cp) && Encode(cp) <= text }

  predicate Scalars(cps: seq<int>) { forall i | 0 <= i < |cps| :: Scalar(cps[i]) }

  function EncodeAll(cps: seq<int>): seq<byte>
    requires Scalars(cps)
  {
    if cps == [] then [] else Encode(cps[0]) + EncodeAll(cps[1..])
  }

  ghost predicate WellFormed(bytes: seq<byte>) { exists cps :: Scalars(cps) && EncodeAll(cps) == bytes }

  /** The bytes of a text as code points, each byte that starts no well-formed sequence read as
      the replacement character. */
  ghost function Sanitised(text: seq<byte>): seq<int> {
    if text == [] then []
    else if exists cp :: Begins(text, cp) then
      var cp :| Begins(text, cp);
      [cp] + Sanitised(text[|Encode(cp)|..])
    else [REPLACEMENT] + Sanitised(text[1..])
  }

  /** The length of a sequence by its first byte. */
  function SizeOf(first: byte): nat {
    if first < 0x80 then 1 else if first < 0xe0 then 2 else if first < 0xf0 then 3 else 4
  }

  lemma FirstByteGivesSize(cp: int)
    requires Scalar(cp)
    ensures |Encode(cp)| == SizeOf(Encode(cp)[0])
  {
  }

  /** A number as a leading part and three digits to the base 64. */
  lemma Digits(cp: int, w: int, x: int, y: int, z: int)
    requires 0 <= w && 0 <= x < 0x40 && 0 <= y < 0x40 && 0 <= z < 0x40
    ensures cp == 0x40000 * w + 0x1000 * x + 0x40 * y + z <==>
            w == cp / 0x40000 && x == cp / 0x1000 % 0x40 && y == cp / 0x40 % 0x40 && z == cp % 0x40
  {
    var high := cp / 0x40;
    var higher := high / 0x40;
    assert higher == cp / 0x1000 && higher / 0x40 == cp / 0x40000;
  }

  lemma EncodeIsInjective(a: int, b: int)
    requires Scalar(a) && Scalar(b) && Encode(a) == Encode(b)
    ensures a == b
  {
    Digits(a, a / 0x40000, a / 0x1000 % 0x40, a / 0x40 % 0x40, a % 0x40);
    Digits(b, b / 0x40000, b / 0x1000 % 0x40, b / 0x40 % 0x40, b % 0x40);
    SameDigits(a, b);
  }

  lemma SameDigits(a: int, b: int)
    requires Scalar(a) && Scalar(b) && Encode(a) == Encode(b)
    ensures a / 0x40000 == b / 0x40000 && a / 0x1000 % 0x40 == b / 0x1000 % 0x40
    ensures a / 0x40 % 0x40 == b / 0x40 % 0x40 && a % 0x40 == b % 0x40
  {
    var x, y := Encode(a), Encode(b);
    assert |x| == |y| && x[0] == y[0];
    if |x| == 2 {
      assert x[1] == y[1];
    } else if |x| == 3 {
      assert x[1] == y[1] && x[2] == y[2];
    } else if |x| == 4 {
      assert x[1] == y[1] && x[2] == y[2] && x[3] == y[3];
    }
  }

  /** Two code points never begin the same text. */
  lemma BeginsOnce(text: seq<byte>, a: int, b: int)
    requires Begins(text, a) && Begins(text, b)
    ensures a == b
  {
    FirstByteGivesSize(a);
    FirstByteGivesSize(b);
    hide Encode;
    assert Encode(a)[0] == text[0] && Encode(b)[0] == text[0];
    assert Encode(a) == text[..SizeOf(text[0])] == Encode(b);
    EncodeIsInjective(a, b);
  }

  lemma Concatenates(a: seq<int>, b: seq<int>)
    requires Scalars(a) && Scalars(b)
    ensures Scalars(a + b) && EncodeAll(a + b) == EncodeAll(a) + EncodeAll(b)
  {
    if a == [] {
      assert a + b == b;
    } else {
      assert (a + b)[1..] == a[1..] + b;
      Concatenates(a[1..], b);
    }
  }

  lemma WellFormedConcatenates(a: seq<byte>, b: seq<byte>)
    requires WellFormed(a) && WellFormed(b)
    ensures WellFormed(a + b)
  {
    var x :| Scalars(x) && EncodeAll(x) == a;
    var y :| Scalars(y) && EncodeAll(y) == b;
    Concatenates(x, y);
  }

  lemma EncodeIsSomething(cp: int)
    requires Scalar(cp)
    ensures Encode(cp) != []
  {
  }

  lemma SanitisedBegins(text: seq<byte>, cp: int)
    requires Begins(text, cp) && Encode(cp) != []
    ensures Sanitised(text) == [cp] + Sanitised(text[|Encode(cp)|..])
  {
    var other :| Begins(text, other) && Sanitised(text) == [other] + Sanitised(text[|Encode(other)|..]);
    BeginsOnce(text, cp, other);
  }

  lemma NothingIsSanitised()
    ensures Sanitised(EncodeAll([])) == []
  {
  }

  lemma EncodedTextBegins(cps: seq<int>)
    requires Scalars(cps) && cps != []
    ensures Begins(EncodeAll(cps), cps[0]) && Encode(cps[0]) != [] && EncodeAll(cps)[|Encode(cps[0])|..] == EncodeAll(cps[1..])
  {
    EncodeIsSomething(cps[0]);
    hide Encode;
    assert EncodeAll(cps) == Encode(cps[0]) + EncodeAll(cps[1..]);
  }

  /** Nothing is lost from well-formed text. */
  lemma {:induction false} SanitisedIsDecoded(cps: seq<int>)
    requires Scalars(cps)
    ensures Sanitised(EncodeAll(cps)) == cps
  {
    hide Encode, Begins, Sanitised, EncodeAll;
    if cps == [] {
      NothingIsSanitised();
    } else {
      EncodedTextBegins(cps);
      SanitisedBegins(EncodeAll(cps), cps[0]);
      SanitisedIsDecoded(cps[1..]);
      assert cps == [cps[0]] + cps[1..];
    }
  }

  // ---- JSON strings -------------------------------------------------------------------------

  function HexValue(b: byte): Option<int> {
    if 0x30 <= b <= 0x39 then Some(b - 0x30)
    else if 0x61 <= b <= 0x66 then Some(b - 0x61 + 10)
    else if 0x41 <= b <= 0x46 then Some(b - 0x41 + 10)
    else None
  }

  /** The code unit of `\uXXXX` at the front of a document. */
  function EscapedUnit(doc: seq<byte>): Option<int> {
    if |doc| < 6 || doc[0] != BACKSLASH || doc[1] != LETTER_U then None
    else
      var a, b, c, d := HexValue(doc[2]), HexValue(doc[3]), HexValue(doc[4]), HexValue(doc[5]);
      if a.Some? && b.Some? && c.Some? && d.Some?
      then Some(0x1000 * a.value + 0x100 * b.value + 0x10 * c.value + d.value)
      else None
  }

  function SimpleEscape(b: byte): Option<int> {
    match b
    case 0x22 => Some(0x22)
    case 0x5c => Some(0x5c)
    case 0x2f => Some(0x2f)
    case 0x62 => Some(0x08)
    case 0x66 => Some(0x0c)
    case 0x6e => Some(0x0a)
    case 0x72 => Some(0x0d)
    case 0x74 => Some(0x09)
    case _ => None
  }

  datatype Item = Item(cp: int, size: nat)

  /** One character of a JSON string: an escape, a surrogate pair of escapes, or the UTF-8 form
      of a character that needs no escape. */
  ghost function FirstItem(doc: seq<byte>): (item: Option<Item>)
    ensures item.Some? ==> 1 <= item.value.size <= |doc| && Scalar(item.value.cp)
  {
    if doc == [] || doc[0] == QUOTE || doc[0] < 0x20 then None
    else if doc[0] == BACKSLASH then
      var unit := EscapedUnit(doc);
      if unit.Some? && Scalar(unit.value) then Some(Item(unit.value, 6))
      else if unit.Some? && unit.value < 0xdc00 then
        var low := EscapedUnit(doc[6..]);
        if low.Some? && 0xdc00 <= low.value < 0xe000
        then Some(Item(0x10000 + 0x400 * (unit.value - 0xd800) + (low.value - 0xdc00), 12))
        else None
      else if |doc| >= 2 && SimpleEscape(doc[1]).Some? then Some(Item(SimpleEscape(doc[1]).value, 2))
      else None
    else if exists cp :: Begins(doc, cp) then
      var cp :| Begins(doc, cp);
      Some(Item(cp, |Encode(cp)|))
    else None
  }

  /** The characters up to the closing quotation mark, which must be the last byte. */
  ghost function Characters(doc: seq<byte>): Option<seq<int>> {
    if doc == [QUOTE] then Some([])
    else
      var item := FirstItem(doc);
      if item.None? then None
      else
        var rest := Characters(doc[item.value.size..]);
        if rest.None? then None else Some([item.value.cp] + rest.value)
  }

  /** What a JSON reader makes of a document that is one string. */
  ghost function ParseString(doc: seq<byte>): Option<seq<int>> {
    if doc == [] || doc[0] != QUOTE then None else Characters(doc[1..])
  }

  lemma NextItem(piece: seq<byte>, rest: seq<byte>, cp: int)
    requires piece != [] && FirstItem(piece + rest) == Some(Item(cp, |piece|)) && Characters(rest).Some?
    ensures Characters(piece + rest) == Some([cp] + Characters(rest).value)
  {
    assert (piece + rest)[|piece|..] == rest;
    assert (piece + rest)[0] == piece[0] && piece[0] != QUOTE;
  }
}

/** The string printer of the disc scanner. */
module JsonString {

  import opened Wrappers
  import opened JsonText

  /** Memory from the start of a string on: it holds a terminator somewhere, and anything after it. */
  predicate Terminated(mem: seq<byte>) { 0 in mem }

  /** The string itself: everything before the first terminator. */
  function Text(mem: seq<byte>): (text: seq<byte>)
    requires Terminated(mem)
    ensures text <= mem && |text| < |mem| && mem[|text|] == 0 && 0 !in text
  {
    if mem[0] == 0 then [] else [mem[0]] + Text(mem[1..])
  }

  /** The classifier. That it is well-formed shows that it never reads past a terminator: every
      read beyond the first byte is guarded by the byte before it. */
  function Utf8SequenceLength(text: seq<byte>): nat
    requires Terminated(text)
  {
    var first := text[0];
    if first >= 0xc2 && first <= 0xdf
       && text[1] >= 0x80 && text[1] <= 0xbf then 2
    else if first >= 0xe0 && first <= 0xef && text[1] != 0 && text[2] != 0
            && text[1] >= 0x80 && text[1] <= 0xbf
            && text[2] >= 0x80 && text[2] <= 0xbf
            && !(first == 0xe0 && text[1] < 0xa0)
            && !(first == 0xed && text[1] >= 0xa0) then 3
    else if first >= 0xf0 && first <= 0xf4 && text[1] != 0 && text[2] != 0
            && text[3] != 0 && text[1] >= 0x80 && text[1] <= 0xbf
            && text[2] >= 0x80 && text[2] <= 0xbf
            && text[3] >= 0x80 && text[3] <= 0xbf
            && !(first == 0xf0 && text[1] < 0x90)
            && !(first == 0xf4 && text[1] > 0x8f) then 4
    else 0
  }

  lemma AcceptedIsEncoded(text: seq<byte>) returns (cp: int)
    requires Terminated(text) && Utf8SequenceLength(text) > 0
    ensures Begins(text, cp) && cp >= 0x80 && |Encode(cp)| == Utf8SequenceLength(text)
  {
    var a: int, b: int, c: int, d: int := text[0] as int, text[1] as int, 0, 0;
    match Utf8SequenceLength(text)
    case 2 =>
      cp := 0x40 * (a - 0xc0) + (b - 0x80);
      assert Encode(cp) == [text[0], text[1]];
    case 3 =>
      c := text[2] as int;
      cp := 0x1000 * (a - 0xe0) + 0x40 * (b - 0x80) + (c - 0x80);
      Digits(cp, 0, a - 0xe0, b - 0x80, c - 0x80);
      assert cp / 0x1000 == a - 0xe0;
      assert Encode(cp) == [text[0], text[1], text[2]];
    case _ =>
      c, d := text[2] as int, text[3] as int;
      cp := 0x40000 * (a - 0xf0) + 0x1000 * (b - 0x80) + 0x40 * (c - 0x80) + (d - 0x80);
      Digits(cp, a - 0xf0, b - 0x80, c - 0x80, d - 0x80);
      assert Encode(cp) == [text[0], text[1], text[2], text[3]];
  }

  lemma EncodedIsAccepted(text: seq<byte>, cp: int)
    requires Terminated(text) && Begins(text, cp) && cp >= 0x80
    ensures Utf8SequenceLength(text) == |Encode(cp)|
  {
    var x := Encode(cp);
    assert forall k | 0 <= k < |x| :: x[k] == text[k];
  }

  /** The classifier accepts exactly the multi-byte sequences of UTF-8, with their lengths. */
  lemma ClassifierIsExact(text: seq<byte>, n: nat)
    requires Terminated(text) && n > 0
    ensures Utf8SequenceLength(text) == n <==> exists cp :: Begins(text, cp) && cp >= 0x80 && |Encode(cp)| == n
  {
    if Utf8SequenceLength(text) == n {
      var cp := AcceptedIsEncoded(text);
    }
    if cp :| Begins(text, cp) && cp >= 0x80 && |Encode(cp)| == n {
      EncodedIsAccepted(text, cp);
    }
  }

  function HexDigit(n: int): byte
    requires 0 <= n < 16
  {
    if n < 10 then 0x30 + n else 0x61 + n - 10
  }

  function UnicodeEscape(unit: int): seq<byte>
    requires 0 <= unit < 0x10000
  {
    [BACKSLASH, LETTER_U, HexDigit(unit / 0x1000), HexDigit(unit / 0x100 % 0x10), HexDigit(unit / 0x10 % 0x10), HexDigit(unit % 0x10)]
  }

  /** How one well-formed character appears in the output. */
  function Printed(cp: int): seq<byte>
    requires Scalar(cp)
  {
    match cp
    case 0x22 => [BACKSLASH, 0x22]
    case 0x5c => [BACKSLASH, 0x5c]
    case 0x08 => [BACKSLASH, 0x62]
    case 0x0c => [BACKSLASH, 0x66]
    case 0x0a => [BACKSLASH, 0x6e]
    case 0x0d => [BACKSLASH, 0x72]
    case 0x09 => [BACKSLASH, 0x74]
    case _ => if cp < 0x20 then UnicodeEscape(cp) else Encode(cp)
  }

  /** The output between the quotation marks. */
  ghost function Body(text: seq<byte>): seq<byte> {
    if text == [] then []
    else if exists cp :: Begins(text, cp) then
      var cp :| Begins(text, cp);
      Printed(cp) + Body(text[|Encode(cp)|..])
    else UnicodeEscape(REPLACEMENT) + Body(text[1..])
  }

  lemma BodyStarts(text: seq<byte>, cp: int)
    requires Begins(text, cp)
    ensures Body(text) == Printed(cp) + Body(text[|Encode(cp)|..])
  {
    var other :| Begins(text, other) && Body(text) == Printed(other) + Body(text[|Encode(other)|..]);
    BeginsOnce(text, cp, other);
  }

  /** The bytes after a string do not change which character a part of it begins with. */
  lemma BeginsWithinText(mem: seq<byte>, cursor: nat, cp: int)
    requires Terminated(mem) && cursor < |Text(mem)|
    ensures Begins(mem[cursor..], cp) <==> Begins(Text(mem)[cursor..], cp)
  {
    var text := Text(mem);
    assert mem[cursor..] == text[cursor..] + mem[|text|..];
    if Scalar(cp) && Encode(cp) <= mem[cursor..] {
      EncodeHasNoTerminator(cp);
      assert forall k | 0 <= k < |Encode(cp)| :: Encode(cp)[k] == mem[cursor + k];
      assert cp != 0;
      assert |Encode(cp)| <= |text| - cursor;
    }
  }

  lemma EncodeHasNoTerminator(cp: int)
    requires Scalar(cp)
    ensures 0 in Encode(cp) <==> cp == 0
  {
  }

  /** The classifier at a byte of the string: what it answers is about the string alone. */
  lemma ClassifierSeesTheTextOnly(mem: seq<byte>, cursor: nat)
    requires Terminated(mem) && cursor < |Text(mem)| && mem[cursor] >= 0x80
    ensures Terminated(mem[cursor..])
    ensures var n := Utf8SequenceLength(mem[cursor..]);
            if n == 0 then !exists cp :: Begins(Text(mem)[cursor..], cp)
            else exists cp :: Begins(Text(mem)[cursor..], cp) && cp >= 0x80 && |Encode(cp)| == n
  {
    var window := mem[cursor..];
    assert window[|Text(mem)| - cursor] == 0;
    var n := Utf8SequenceLength(window);
    if n == 0 {
      forall cp ensures !Begins(Text(mem)[cursor..], cp) {
        BeginsWithinText(mem, cursor, cp);
        if Begins(window, cp) {
          assert Encode(cp)[0] == mem[cursor];
          EncodedIsAccepted(window, cp);
        }
      }
    } else {
      var cp := AcceptedIsEncoded(window);
      BeginsWithinText(mem, cursor, cp);
    }
  }

  lemma AsciiStarts(text: seq<byte>, b: byte)
    requires text != [] && text[0] == b < 0x80
    ensures Body(text) == Printed(b) + Body(text[1..])
  {
    assert Encode(b) == [b] && Begins(text, b);
    BodyStarts(text, b);
  }

  /** One more piece written: the output so far and what is still to come. */
  lemma Progress(out: seq<byte>, piece: seq<byte>, text: seq<byte>, cursor: nat, next: nat)
    requires cursor <= next <= |text| && Body(text[cursor..]) == piece + Body(text[next..])
    requires [QUOTE] + Body(text) == out + Body(text[cursor..])
    ensures [QUOTE] + Body(text) == (out + piece) + Body(text[next..])
  {
  }

  method JsonString(mem: seq<byte>) returns (out: seq<byte>)
    requires Terminated(mem)
    ensures out == [QUOTE] + Body(Text(mem)) + [QUOTE]
  {
    hide Body, Encode, EncodeAll;
    ghost var text := Text(mem);
    var cursor := 0;
    out := [QUOTE];
    assert text[0..] == text;
    while mem[cursor] != 0
      invariant 0 <= cursor <= |text|
      invariant [QUOTE] + Body(text) == out + Body(text[cursor..])
      decreases |text| - cursor
    {
      var piece: seq<byte>;
      var size: nat := 1;
      var b := mem[cursor];
      ghost var rest := text[cursor..];
      match b {
        case 0x22 => piece := [BACKSLASH, 0x22];
        case 0x5c => piece := [BACKSLASH, 0x5c];
        case 0x08 => piece := [BACKSLASH, 0x62];
        case 0x0c => piece := [BACKSLASH, 0x66];
        case 0x0a => piece := [BACKSLASH, 0x6e];
        case 0x0d => piece := [BACKSLASH, 0x72];
        case 0x09 => piece := [BACKSLASH, 0x74];
        case _ =>
          if b < 0x20 {
            piece := UnicodeEscape(b);
          } else if b < 0x80 {
            piece := [b];
          } else {
            piece, size := MultiByte(mem, cursor);
          }
      }
      if b < 0x80 {
        AsciiStarts(rest, b);
        AsciiIsItself(b);
        assert rest[1..] == text[cursor + 1..];
      }
      Progress(out, piece, text, cursor, cursor + size);
      out := out + piece;
      cursor := cursor + size;
    }
    assert text[|text|..] == [];
    EmptyBody();
    out := out + [QUOTE];
  }

  lemma EmptyBody()
    ensures Body([]) == []
  {
  }

  lemma AsciiIsItself(b: byte)
    ensures b < 0x80 ==> Encode(b) == [b]
  {
  }

  lemma MultiByteIsPrintedAsIs(cp: int)
    requires Scalar(cp) && cp >= 0x80
    ensures Printed(cp) == Encode(cp)
  {
  }

  /** The last branch of the printer: a multi-byte sequence as it stands, or a replacement for one
      byte. */
  method MultiByte(mem: seq<byte>, cursor: nat) returns (piece: seq<byte>, size: nat)
    requires Terminated(mem) && cursor < |Text(mem)| && mem[cursor] >= 0x80
    ensures 1 <= size <= |Text(mem)| - cursor
    ensures Body(Text(mem)[cursor..]) == piece + Body(Text(mem)[cursor + size..])
  {
    hide Encode, EncodeAll, Printed, Utf8SequenceLength;
    ghost var rest := Text(mem)[cursor..];
    ClassifierSeesTheTextOnly(mem, cursor);
    var sequenceLength := Utf8SequenceLength(mem[cursor..]);
    if sequenceLength == 0 {
      assert rest[1..] == Text(mem)[cursor + 1..];
      return UnicodeEscape(REPLACEMENT), 1;
    }
    ghost var cp :| Begins(rest, cp) && cp >= 0x80 && |Encode(cp)| == sequenceLength;
    BodyStarts(rest, cp);
    MultiByteIsPrintedAsIs(cp);
    assert mem[cursor..cursor + sequenceLength] == rest[..sequenceLength] == Encode(cp);
    assert rest[sequenceLength..] == Text(mem)[cursor + sequenceLength..];
    return mem[cursor..cursor + sequenceLength], sequenceLength;
  }

  // ---- what the output means ----------------------------------------------------------------

  lemma HexDigitIsRead(n: int)
    requires 0 <= n < 16
    ensures HexValue(HexDigit(n)) == Some(n)
  {
  }

  lemma EscapeIsRead(unit: int, rest: seq<byte>)
    requires 0 <= unit < 0x10000 && Scalar(unit)
    ensures FirstItem(UnicodeEscape(unit) + rest) == Some(Item(unit, 6))
  {
    var doc := UnicodeEscape(unit) + rest;
    UnitIsRead(unit, rest);
    hide EscapedUnit, UnicodeEscape;
    assert doc[0] == BACKSLASH && doc != [];
  }

  lemma FourDigits(unit: int)
    requires 0 <= unit < 0x10000
    ensures unit == 0x1000 * (unit / 0x1000) + 0x100 * (unit / 0x100 % 0x10) + 0x10 * (unit / 0x10 % 0x10) + unit % 0x10
    ensures unit / 0x1000 < 0x10
  {
    var a := unit / 0x10;
    var b := a / 0x10;
    assert b == unit / 0x100 && b / 0x10 == unit / 0x1000;
  }

  lemma UnitIsRead(unit: int, rest: seq<byte>)
    requires 0 <= unit < 0x10000
    ensures EscapedUnit(UnicodeEscape(unit) + rest) == Some(unit)
    ensures |UnicodeEscape(unit)| == 6 && UnicodeEscape(unit)[0] == BACKSLASH
  {
    var doc := UnicodeEscape(unit) + rest;
    FourDigits(unit);
    var a, b, c, d := unit / 0x1000, unit / 0x100 % 0x10, unit / 0x10 % 0x10, unit % 0x10;
    HexDigitIsRead(a);
    HexDigitIsRead(b);
    HexDigitIsRead(c);
    HexDigitIsRead(d);
    hide HexValue, HexDigit;
    assert doc[0] == BACKSLASH && doc[1] == LETTER_U;
    assert doc[2] == HexDigit(a) && doc[3] == HexDigit(b) && doc[4] == HexDigit(c) && doc[5] == HexDigit(d);
  }

  lemma PrintedIsRead(cp: int, rest: seq<byte>)
    requires Scalar(cp)
    ensures FirstItem(Printed(cp) + rest) == Some(Item(cp, |Printed(cp)|))
  {
    var doc := Printed(cp) + rest;
    if cp in {0x22, 0x5c, 0x08, 0x0c, 0x0a, 0x0d, 0x09} {
      assert doc[0] == BACKSLASH && doc[1] == Printed(cp)[1];
    } else if cp < 0x20 {
      EscapeIsRead(cp, rest);
    } else {
      assert doc[0] == Encode(cp)[0];
      assert Begins(doc, cp);
      var other :| Begins(doc, other) && FirstItem(doc) == Some(Item(other, |Encode(other)|));
      BeginsOnce(doc, cp, other);
    }
  }

  lemma {:induction false} BodyIsRead(text: seq<byte>)
    ensures Characters(Body(text) + [QUOTE]) == Some(Sanitised(text))
  {
    hide FirstItem, Printed;
    if text == [] {
      assert Body(text) + [QUOTE] == [QUOTE];
    } else if cp :| Begins(text, cp) {
      var rest := text[|Encode(cp)|..];
      BodyIsRead(rest);
      BodyStarts(text, cp);
      SanitisedStarts(text, cp);
      PrintedIsRead(cp, Body(rest) + [QUOTE]);
      PrintedIsSomething(cp);
      NextItem(Printed(cp), Body(rest) + [QUOTE], cp);
      assert Body(text) + [QUOTE] == Printed(cp) + (Body(rest) + [QUOTE]);
    } else {
      var rest := text[1..];
      BodyIsRead(rest);
      var piece := UnicodeEscape(REPLACEMENT);
      EscapeIsRead(REPLACEMENT, Body(rest) + [QUOTE]);
      NextItem(piece, Body(rest) + [QUOTE], REPLACEMENT);
      assert Body(text) + [QUOTE] == piece + (Body(rest) + [QUOTE]);
    }
  }

  lemma PrintedIsSomething(cp: int)
    requires Scalar(cp)
    ensures Printed(cp) != []
  {
  }

  lemma SanitisedStarts(text: seq<byte>, cp: int)
    requires Begins(text, cp)
    ensures Sanitised(text) == [cp] + Sanitised(text[|Encode(cp)|..])
  {
    EncodeIsSomething(cp);
    SanitisedBegins(text, cp);
  }

  /** For every NUL-terminated byte string, a JSON reader gets the string back, with each byte that
      starts no well-formed sequence replaced. */
  lemma OutputIsAJsonString(text: seq<byte>)
    ensures ParseString([QUOTE] + Body(text) + [QUOTE]) == Some(Sanitised(text))
  {
    BodyIsRead(text);
    assert ([QUOTE] + Body(text) + [QUOTE])[1..] == Body(text) + [QUOTE];
  }

  /** Hence a string that is valid UTF-8 comes back exactly. */
  lemma ValidTextRoundTrips(cps: seq<int>)
    requires Scalars(cps)
    ensures ParseString([QUOTE] + Body(EncodeAll(cps)) + [QUOTE]) == Some(cps)
  {
    OutputIsAJsonString(EncodeAll(cps));
    SanitisedIsDecoded(cps);
  }

  lemma {:induction false} AsciiIsWellFormed(bytes: seq<byte>)
    requires forall b | b in bytes :: b < 0x80
    ensures WellFormed(bytes)
  {
    hide WellFormed, Encode;
    if bytes == [] {
      NothingIsWellFormed();
    } else {
      assert forall b | b in bytes[1..] :: b in bytes;
      AsciiIsWellFormed(bytes[1..]);
      assert bytes[0] in bytes;
      AsciiIsOneByte(bytes[0]);
      OneCharacterIsWellFormed(bytes[0]);
      WellFormedConcatenates([bytes[0]], bytes[1..]);
      assert [bytes[0]] + bytes[1..] == bytes;
    }
  }

  lemma NothingIsWellFormed()
    ensures WellFormed([])
  {
    assert Scalars([]) && EncodeAll([]) == [];
  }

  lemma AsciiIsOneByte(b: byte)
    requires b < 0x80
    ensures Encode(b) == [b]
  {
  }

  lemma OneCharacterIsWellFormed(cp: int)
    requires Scalar(cp)
    ensures WellFormed(Encode(cp))
  {
    assert EncodeAll([cp]) == Encode(cp);
  }

  lemma PrintedIsWellFormed(cp: int)
    requires Scalar(cp)
    ensures WellFormed(Printed(cp))
  {
    if cp in {0x22, 0x5c, 0x08, 0x0c, 0x0a, 0x0d, 0x09} || cp < 0x20 {
      AsciiIsWellFormed(Printed(cp));
    } else {
      OneCharacterIsWellFormed(cp);
    }
  }

  /** The output is well-formed UTF-8, whatever the input. */
  lemma {:induction false} BodyIsWellFormed(text: seq<byte>)
    ensures WellFormed(Body(text))
  {
    hide WellFormed, Printed;
    if text == [] {
      AsciiIsWellFormed([]);
    } else if cp :| Begins(text, cp) {
      BodyStarts(text, cp);
      PrintedIsWellFormed(cp);
      BodyIsWellFormed(text[|Encode(cp)|..]);
      WellFormedConcatenates(Printed(cp), Body(text[|Encode(cp)|..]));
    } else {
      AsciiIsWellFormed(UnicodeEscape(REPLACEMENT));
      BodyIsWellFormed(text[1..]);
      WellFormedConcatenates(UnicodeEscape(REPLACEMENT), Body(text[1..]));
    }
  }
}
