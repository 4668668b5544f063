/**
 Which bytes the decoder really reads. `handle_line` hands the bytes it scanned to `json.loads`, which chooses one of
 seven encodings by their first bytes (`json.detect_encoding`), while the scanner takes every byte for a character.
 The scanner guards the decoder when UTF-8 is chosen, and in no other case. The other three callers scan the UTF-8
 form of the text they decode.
 */
module Encodings {
  import opened Nesting
  import opened Decoder

  type Point = p: int | 0 <= p < 0x11_0000

  datatype Encoding = Utf8(mark: bool) | Utf16(big: bool, mark: bool) | Utf32(big: bool, mark: bool)

  // ----- encoding ------------------------------------------------------------------------------

  function Utf8Point(p: Point): seq<Byte> {
    if p < 0x80 then [p]
    else if p < 0x800 then [0xC0 + p / 0x40, 0x80 + p % 0x40]
    else if p < 0x1_0000 then [0xE0 + p / 0x1000, 0x80 + p / 0x40 % 0x40, 0x80 + p % 0x40]
    else [0xF0 + p / 0x4_0000, 0x80 + p / 0x1000 % 0x40, 0x80 + p / 0x40 % 0x40, 0x80 + p % 0x40]
  }

  /** Two bytes, the more significant one first when `big`. */
  function Pair(n: int, big: bool): seq<Byte>
    requires 0 <= n < 0x1_0000
  {
    if big then [n / 0x100, n % 0x100] else [n % 0x100, n / 0x100]
  }

  function Utf16Point(p: Point, big: bool): seq<Byte> {
    if p < 0x1_0000 then Pair(p, big)
    else Pair(0xD800 + (p - 0x1_0000) / 0x400, big) + Pair(0xDC00 + (p - 0x1_0000) % 0x400, big)
  }

  function Utf32Point(p: Point, big: bool): seq<Byte> {
    if big then Pair(p / 0x1_0000, big) + Pair(p % 0x1_0000, big) else Pair(p % 0x1_0000, big) + Pair(p / 0x1_0000, big)
  }

  function PointBytes(e: Encoding, p: Point): seq<Byte> {
    match e
    case Utf8(_) => Utf8Point(p)
    case Utf16(big, _) => Utf16Point(p, big)
    case Utf32(big, _) => Utf32Point(p, big)
  }

  function TextBytes(e: Encoding, text: seq<Point>): seq<Byte> {
    if text == [] then [] else PointBytes(e, text[0]) + TextBytes(e, text[1..])
  }

  /** The byte order mark. */
  function Mark(e: Encoding): seq<Byte> {
    match e
    case Utf8(mark) => if mark then [0xEF, 0xBB, 0xBF] else []
    case Utf16(big, mark) => if !mark then [] else if big then [0xFE, 0xFF] else [0xFF, 0xFE]
    case Utf32(big, mark) => if !mark then [] else if big then [0, 0, 0xFE, 0xFF] else [0xFF, 0xFE, 0, 0]
  }

  function Encode(e: Encoding, text: seq<Point>): seq<Byte> { Mark(e) + TextBytes(e, text) }

  /** `json.detect_encoding`; the mark also settles the byte order. */
  function Detect(b: seq<Byte>): Encoding {
    if Mark(Utf32(true, true)) <= b then Utf32(true, true)
    else if Mark(Utf32(false, true)) <= b then Utf32(false, true)
    else if Mark(Utf16(true, true)) <= b then Utf16(true, true)
    else if Mark(Utf16(false, true)) <= b then Utf16(false, true)
    else if Mark(Utf8(true)) <= b then Utf8(true)
    else if |b| >= 4 then
      if b[0] == 0 then if b[1] != 0 then Utf16(true, false) else Utf32(true, false)
      else if b[1] == 0 then if b[2] != 0 || b[3] != 0 then Utf16(false, false) else Utf32(false, false)
      else Utf8(false)
    else if |b| == 2 then
      if b[0] == 0 then Utf16(true, false) else if b[1] == 0 then Utf16(false, false) else Utf8(false)
    else Utf8(false)
  }

  /** The decoder's deepest recursion on a text; it works on characters, of which UTF-8 is one spelling. */
  function TextPeak(text: seq<Point>): int { StackPeak(BEGIN, TextBytes(Utf8(false), text)) }

  // ----- UTF-8 ---------------------------------------------------------------------------------

  lemma MarkInert(bytes: seq<Byte>)
    ensures Peak(START, Mark(Utf8(true)) + bytes) == Peak(START, bytes)
  {
    var m := Mark(Utf8(true));
    assert m == [m[0]] + ([m[1]] + [m[2]]);
    assert Quiet(m);
    QuietOutside(START, m);
    FoldConcat(START, m, bytes);
    PeakAtLeastStart(START, bytes);
  }

  /** No byte means anything to the scanner outside a string. */
  predicate Quiet(bytes: seq<Byte>) {
    forall i :: 0 <= i < |bytes| ==>
      bytes[i] !in [QUOTE, BACKSLASH, OPEN_LIST, OPEN_OBJECT, CLOSE_LIST, CLOSE_OBJECT]
  }

  lemma {:induction false} QuietOutside(s: Scan, bytes: seq<Byte>)
    requires Quiet(bytes) && !s.escaped
    ensures Fold(s, bytes) == s && Peak(s, bytes) == s.depth
  {
    if bytes != [] { QuietOutside(s, bytes[1..]); }
  }

  /** Whatever the payload, if its first bytes select UTF-8 then the scanner guards the decoder. */
  lemma Utf8PayloadGuarded(payload: seq<Byte>, limit: nat)
    requires Detect(payload).Utf8? && Peak(START, payload) <= limit
    ensures var m := Mark(Detect(payload)); m <= payload && StackPeak(BEGIN, payload[|m|..]) <= limit
  {
    var m := Mark(Detect(payload));
    assert payload == m + payload[|m|..];
    if Detect(payload).mark { MarkInert(payload[|m|..]); }
    ScannerGuardsDecoder(payload[|m|..], limit);
  }

  // ----- a text that hides its nesting ---------------------------------------------------------

  /** `n + 1` empty lists inside each other. */
  function Lists(n: nat): Value {
    if n == 0 then List([], []) else List([], [Item([], Lists(n - 1), [])])
  }

  /** The three UTF-8 bytes of U+2200. */
  const FOR_ALL: seq<Unit> := [Plain(0xE2), Plain(0x88), Plain(0x80)]

  /** A list of the string U+2200 and of nested lists. */
  function Hidden(n: nat): Value {
    List([], [Item([], String(FOR_ALL), []), Item([], Lists(n), [])])
  }

  const OPENING: seq<Point> := [0x5B, 0x22, 0x2200, 0x22]

  function Rest(n: nat): (r: seq<Byte>) { [COMMA] + (ValueBytes(Lists(n)) + [CLOSE_LIST]) }

  function HiddenText(n: nat): seq<Point> { OPENING + Rest(n) }

  lemma {:induction false} ListsFacts(n: nat)
    ensures ValueOk(Lists(n)) && Depth(Lists(n)) == n + 1
    ensures forall i :: 0 <= i < |ValueBytes(Lists(n))| ==> ValueBytes(Lists(n))[i] == OPEN_LIST || ValueBytes(Lists(n))[i] == CLOSE_LIST
  {
    if n > 0 {
      ListsFacts(n - 1);
      var items := [Item([], Lists(n - 1), [])];
      assert items[1..] == [];
      assert ItemsDepth(items) == Max(Depth(items[0].value), ItemsDepth(items[1..]));
      assert ItemBytes(items[0]) == ValueBytes(Lists(n - 1));
    }
  }

  lemma HiddenFacts(n: nat)
    ensures ValueOk(Hidden(n)) && Depth(Hidden(n)) == n + 2
  {
    ListsFacts(n);
    var items := [Item([], String(FOR_ALL), []), Item([], Lists(n), [])];
    assert items[1..] == [Item([], Lists(n), [])] && items[1..][1..] == [];
    assert ItemsDepth(items) == Max(0, ItemsDepth(items[1..]));
    assert ItemsDepth(items[1..]) == Max(n + 1, ItemsDepth(items[1..][1..]));
  }

  lemma {:induction false} AsciiIsItself(text: seq<Point>)
    requires forall i :: 0 <= i < |text| ==> text[i] < 0x80
    ensures TextBytes(Utf8(false), text) == text
  {
    if text != [] { AsciiIsItself(text[1..]); }
  }

  lemma {:induction false} TextConcat(e: Encoding, a: seq<Point>, b: seq<Point>)
    ensures TextBytes(e, a + b) == TextBytes(e, a) + TextBytes(e, b)
  {
    if a == [] {
      assert a + b == b;
    } else {
      assert (a + b)[1..] == a[1..] + b;
      TextConcat(e, a[1..], b);
    }
  }

  lemma OpeningBytes(e: Encoding)
    ensures TextBytes(e, OPENING) ==
            PointBytes(e, 0x5B) + (PointBytes(e, 0x22) + (PointBytes(e, 0x2200) + PointBytes(e, 0x22)))
  {
    hide PointBytes;
    assert OPENING[1..] == [0x22, 0x2200, 0x22] && OPENING[1..][1..] == [0x2200, 0x22];
    assert OPENING[1..][1..][1..] == [0x22] && OPENING[1..][1..][1..][1..] == [];
    assert TextBytes(e, []) == [];
    assert TextBytes(e, [0x22]) == PointBytes(e, 0x22) + TextBytes(e, []);
    assert TextBytes(e, [0x2200, 0x22]) == PointBytes(e, 0x2200) + TextBytes(e, [0x22]);
    assert TextBytes(e, [0x22, 0x2200, 0x22]) == PointBytes(e, 0x22) + TextBytes(e, [0x2200, 0x22]);
  }

  /** The text is a text of the value. */
  lemma HiddenBytes(n: nat)
    ensures TextBytes(Utf8(false), HiddenText(n)) == ItemBytes(Item([], Hidden(n), []))
  {
    hide ItemBytes, TextBytes, ValueBytes, Lists;
    var e := Utf8(false);
    var rest := Rest(n);
    ListsFacts(n);
    AsciiIsItself(rest);
    TextConcat(e, OPENING, rest);
    OpeningInUtf8();
    HiddenLayout(n);
  }

  lemma OpeningInUtf8()
    ensures TextBytes(Utf8(false), OPENING) == [0x5B, 0x22, 0xE2, 0x88, 0x80, 0x22]
  {
    OpeningBytes(Utf8(false));
    assert Utf8Point(0x2200) == [0xE2, 0x88, 0x80];
  }

  lemma HiddenLayout(n: nat)
    ensures ItemBytes(Item([], Hidden(n), [])) == [0x5B, 0x22, 0xE2, 0x88, 0x80, 0x22] + Rest(n)
  {
    hide Lists, StringBytes, FOR_ALL;
    var items := [Item([], String(FOR_ALL), []), Item([], Lists(n), [])];
    assert items[1..] == [Item([], Lists(n), [])];
    assert ItemsBytes(items) == ItemBytes(items[0]) + ([COMMA] + ItemsBytes(items[1..]));
    assert ItemsBytes(items[1..]) == ItemBytes(items[1]);
    assert ItemBytes(items[1]) == ValueBytes(Lists(n));
    ForAllBytes();
    assert ItemBytes(Item([], Hidden(n), [])) == ValueBytes(Hidden(n));
  }

  lemma ForAllBytes()
    ensures StringBytes(FOR_ALL) == [0x22, 0xE2, 0x88, 0x80, 0x22]
  {
    assert FOR_ALL[1..] == [Plain(0x88), Plain(0x80)] && FOR_ALL[1..][1..] == [Plain(0x80)] && FOR_ALL[1..][1..][1..] == [];
    assert UnitsBytes([Plain(0x80)]) == [0x80];
    assert UnitsBytes(FOR_ALL[1..]) == [0x88, 0x80];
    assert UnitsBytes(FOR_ALL) == [0xE2, 0x88, 0x80];
  }

  /** The decoder goes through all of it. */
  lemma HiddenIsDeep(n: nat)
    ensures Completes(BEGIN, TextBytes(Utf8(false), HiddenText(n))) && TextPeak(HiddenText(n)) == n + 2
  {
    hide Completes, StackPeak;
    HiddenFacts(n);
    HiddenBytes(n);
    DecoderAcceptsEveryText(Item([], Hidden(n), []));
  }

  // ----- what the scanner sees of it -----------------------------------------------------------

  predicate Zeros(bytes: seq<Byte>) { forall i :: 0 <= i < |bytes| ==> bytes[i] == 0 }

  /** Zero bytes around a byte change nothing. */
  lemma AmongZeros(s: Scan, before: seq<Byte>, b: Byte, after: seq<Byte>)
    requires Zeros(before) && Zeros(after) && !s.escaped && !Advance(s, b).escaped
    ensures var bytes := before + ([b] + after);
            Fold(s, bytes) == Advance(s, b) && Peak(s, bytes) == Max(s.depth, Advance(s, b).depth)
  {
    hide Fold, Peak, Advance;
    QuietOutside(s, before);
    QuietOutside(Advance(s, b), after);
    ScanOne(s, b);
    FoldConcat(s, [b], after);
    FoldConcat(s, before, [b] + after);
  }

  /** In the wide encodings a character below 0x10000 with one byte that is not zero is that byte among zeros. */
  lemma OneByte(e: Encoding, p: Point, b: Byte) returns (before: seq<Byte>, after: seq<Byte>)
    requires !e.Utf8? && (p == b || p == b * 0x100)
    ensures PointBytes(e, p) == before + ([b] + after) && Zeros(before) && Zeros(after)
  {
    var all, high := PointBytes(e, p), p != b;
    var at := match e
      case Utf16(big, _) => if big == high then 0 else 1
      case Utf32(big, _) => if big then if high then 2 else 3 else if high then 1 else 0;
    HighLow(p, b);
    assert all[at] == b;
    before, after := all[..at], all[at + 1..];
    assert all == before + ([b] + after);
  }

  lemma HighLow(p: int, b: int)
    requires 0 <= b < 0x100 && (p == b || p == b * 0x100)
    ensures p < 0x1_0000 && p / 0x1_0000 == 0 && p % 0x1_0000 == p
    ensures p / 0x100 == (if p == b then 0 else b) && p % 0x100 == if p == b then b else 0
  {
  }

  lemma WideAscii(e: Encoding, s: Scan, p: Point)
    requires !e.Utf8? && p < 0x80 && !s.escaped && p != BACKSLASH
    ensures var b := PointBytes(e, p); Fold(s, b) == Advance(s, p) && Peak(s, b) == Max(s.depth, Advance(s, p).depth)
    ensures forall i :: 0 <= i < |PointBytes(e, p)| ==> PointBytes(e, p)[i] == 0 || PointBytes(e, p)[i] == p
  {
    hide PointBytes, Fold, Peak;
    var before, after := OneByte(e, p, p);
    AmongZeros(s, before, p, after);
  }

  /** One of the bytes of U+2200 is a quote. */
  lemma WideForAll(e: Encoding, s: Scan)
    requires !e.Utf8? && s.inString && !s.escaped
    ensures var b := PointBytes(e, 0x2200); Fold(s, b) == s.(inString := false) && Peak(s, b) == s.depth
  {
    hide PointBytes, Fold, Peak;
    var before, after := OneByte(e, 0x2200, QUOTE);
    AmongZeros(s, before, QUOTE, after);
  }

  /** After the opening the scanner believes it is inside a string. */
  lemma OpeningSeen(e: Encoding)
    requires !e.Utf8?
    ensures var b := TextBytes(e, OPENING); Fold(START, b) == Scan(1, true, false) && Peak(START, b) == 1
  {
    hide PointBytes, Fold, Peak;
    var a, q, f := PointBytes(e, 0x5B), PointBytes(e, 0x22), PointBytes(e, 0x2200);
    var one, inside := Scan(1, false, false), Scan(1, true, false);
    OpeningBytes(e);
    WideAscii(e, START, 0x5B);
    WideAscii(e, one, 0x22);
    WideForAll(e, inside);
    FoldConcat(one, f, q);
    FoldConcat(inside, f, q);
    FoldConcat(one, q, f + q);
    FoldConcat(START, a, q + (f + q));
  }

  /** No byte ends a string or starts an escape. */
  predicate Inert(bytes: seq<Byte>) { forall i :: 0 <= i < |bytes| ==> bytes[i] != QUOTE && bytes[i] != BACKSLASH }

  lemma {:induction false} Unseen(s: Scan, bytes: seq<Byte>)
    requires s.inString && !s.escaped && Inert(bytes)
    ensures Fold(s, bytes) == s && Peak(s, bytes) == s.depth
  {
    if bytes != [] { Unseen(s, bytes[1..]); }
  }

  lemma {:induction false} RestBytes(e: Encoding, text: seq<Point>)
    requires !e.Utf8? && forall i :: 0 <= i < |text| ==> text[i] == COMMA || text[i] == OPEN_LIST || text[i] == CLOSE_LIST
    ensures Inert(TextBytes(e, text))
  {
    if text != [] {
      hide PointBytes;
      WideAscii(e, START, text[0]);
      RestBytes(e, text[1..]);
    }
  }

  lemma MarksQuiet(e: Encoding)
    ensures Quiet(Mark(e))
  {
  }

  lemma HiddenSeen(e: Encoding, n: nat)
    requires !e.Utf8?
    ensures Peak(START, Encode(e, HiddenText(n))) == 1
  {
    hide PointBytes, Fold, Peak, Mark, Quiet;
    var head, rest := TextBytes(e, OPENING), TextBytes(e, Rest(n));
    MarksQuiet(e);
    QuietOutside(START, Mark(e));
    TextConcat(e, OPENING, Rest(n));
    OpeningSeen(e);
    ListsFacts(n);
    RestBytes(e, Rest(n));
    Unseen(Scan(1, true, false), rest);
    FoldConcat(START, head, rest);
    FoldConcat(START, Mark(e), head + rest);
  }

  /** How the text starts in a wide encoding. */
  function FirstFour(e: Encoding): seq<Byte> {
    match e
    case Utf8(_) => []
    case Utf16(big, _) => if big then [0, 0x5B, 0, 0x22] else [0x5B, 0, 0x22, 0]
    case Utf32(big, _) => if big then [0, 0, 0, 0x5B] else [0x5B, 0, 0, 0]
  }

  lemma OpeningStarts(e: Encoding, n: nat)
    requires !e.Utf8?
    ensures FirstFour(e) <= TextBytes(e, HiddenText(n))
  {
    hide Mark, Rest, TextBytes;
    TextConcat(e, OPENING, Rest(n));
    OpeningBytes(e);
    assert FirstFour(e) <= PointBytes(e, 0x5B) + PointBytes(e, 0x22);
  }

  lemma DetectsMark(e: Encoding, b: seq<Byte>)
    requires e.mark && !e.Utf8? && Mark(e) + FirstFour(e) <= b
    ensures Detect(b) == e
  {
    var start := Mark(e) + FirstFour(e);
    assert b[0] == start[0] && b[1] == start[1] && b[2] == start[2] && b[3] == start[3];
  }

  lemma DetectsZeros(e: Encoding, b: seq<Byte>)
    requires !e.mark && !e.Utf8? && FirstFour(e) <= b
    ensures Detect(b) == e
  {
    var start := FirstFour(e);
    assert b[0] == start[0] && b[1] == start[1] && b[2] == start[2] && b[3] == start[3];
  }

  lemma HiddenDetected(e: Encoding, n: nat)
    requires !e.Utf8?
    ensures Detect(Encode(e, HiddenText(n))) == e
  {
    hide TextBytes, Detect, FirstFour;
    OpeningStarts(e, n);
    var w := TextBytes(e, HiddenText(n));
    assert Mark(e) + FirstFour(e) <= Mark(e) + w;
    if e.mark {
      DetectsMark(e, Mark(e) + w);
    } else {
      assert Mark(e) + w == w;
      DetectsZeros(e, w);
    }
  }

  /**
   In every other encoding, and for every depth, there is a payload that the scanner sees as one list and the decoder
   follows to that depth.
   */
  lemma WideTextHidesNesting(e: Encoding, n: nat)
    requires !e.Utf8?
    ensures Detect(Encode(e, HiddenText(n))) == e && Peak(START, Encode(e, HiddenText(n))) == 1
    ensures TextPeak(HiddenText(n)) == n + 2
  {
    hide *;
    HiddenDetected(e, n);
    HiddenSeen(e, n);
    HiddenIsDeep(n);
  }

  /** Every payload of this encoding that passes the scanner keeps the decoder within the limit. */
  ghost predicate Guards(e: Encoding, limit: nat) {
    forall text :: Detect(Encode(e, text)) == e && Peak(START, Encode(e, text)) <= limit ==> TextPeak(text) <= limit
  }

  /** The scanner guards the decoder exactly for the encodings that are UTF-8. */
  lemma GuardsExactlyUtf8(e: Encoding, limit: nat)
    requires limit > 0
    ensures Guards(e, limit) <==> e.Utf8?
  {
    hide Detect, Peak, StackPeak, HiddenText;
    if e.Utf8? {
      forall text | Detect(Encode(e, text)) == e && Peak(START, Encode(e, text)) <= limit ensures TextPeak(text) <= limit {
        Utf8PayloadGuarded(Encode(e, text), limit);
        SameTextBytes(e, text);
        assert Encode(e, text)[|Mark(e)|..] == TextBytes(e, text);
      }
    } else {
      WideTextHidesNesting(e, limit);
      assert TextPeak(HiddenText(limit)) > limit;
    }
  }

  lemma {:induction false} SameTextBytes(e: Encoding, text: seq<Point>)
    requires e.Utf8?
    ensures TextBytes(e, text) == TextBytes(Utf8(false), text)
  {
    if text != [] { SameTextBytes(e, text[1..]); }
  }
}
