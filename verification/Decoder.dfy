/**
 A pushdown decoder for the JSON grammar of RFC 8259 and its agreement with the flat scanner.

 Each frame of the stack is one activation of the recursive decoder that the scanner protects. The
 decoder is permissive about the spelling of literals, so it rejects no earlier than a strict one. It reads the
 very bytes the scanner saw, as three of the four callers arrange; for the fourth see `Encodings`.
 */
module Decoder {
  import opened Options
  import opened Nesting
  import J = JsonText

  datatype Frame = InList | InObject

  datatype Escaping = NoEscape | AfterBackslash | HexLeft(n: nat)

  datatype Mode =
    | WantValue
    | WantValueOrEnd        // right after `[`
    | WantKey
    | WantKeyOrEnd          // right after `{`
    | WantColon
    | After(literal: bool)  // a value is complete; a literal may still go on
    | InString(key: bool, esc: Escaping)

  datatype State = State(stack: seq<Frame>, mode: Mode)

  const BEGIN := State([], WantValue)

  function Pop(d: State): State
    requires d.stack != []
  {
    State(d.stack[..|d.stack| - 1], After(false))
  }

  function Top(d: State): Frame
    requires d.stack != []
  {
    d.stack[|d.stack| - 1]
  }

  function StringByte(d: State, key: bool, esc: Escaping, b: Byte): Option<State> {
    match esc
    case NoEscape =>
      if b == QUOTE then Some(d.(mode := if key then WantColon else After(false)))
      else if b == BACKSLASH then Some(d.(mode := InString(key, AfterBackslash)))
      else if IsPlain(b) then Some(d)
      else None
    case AfterBackslash =>
      if IsEscape(b) then Some(d.(mode := InString(key, NoEscape)))
      else if b == 0x75 then Some(d.(mode := InString(key, HexLeft(4))))
      else None
    case HexLeft(n) =>
      if IsHex(b) then Some(d.(mode := InString(key, if n <= 1 then NoEscape else HexLeft(n - 1)))) else None
  }

  function ValueByte(d: State, b: Byte): Option<State> {
    if b == QUOTE then Some(d.(mode := InString(false, NoEscape)))
    else if b == OPEN_LIST then Some(State(d.stack + [InList], WantValueOrEnd))
    else if b == OPEN_OBJECT then Some(State(d.stack + [InObject], WantKeyOrEnd))
    else if IsLiteral(b) then Some(d.(mode := After(true)))
    else None
  }

  function AfterByte(d: State, literal: bool, b: Byte): Option<State> {
    if literal && IsLiteral(b) then Some(d)
    else if d.stack == [] then None
    else if Top(d).InList? then
      if b == COMMA then Some(d.(mode := WantValue)) else if b == CLOSE_LIST then Some(Pop(d)) else None
    else
      if b == COMMA then Some(d.(mode := WantKey)) else if b == CLOSE_OBJECT then Some(Pop(d)) else None
  }

  function Consume(d: State, b: Byte): Option<State> {
    if d.mode.InString? then StringByte(d, d.mode.key, d.mode.esc, b)
    else if J.IsSpace(b) then Some(if d.mode.After? then d.(mode := After(false)) else d)
    else if d.mode.After? then AfterByte(d, d.mode.literal, b)
    else if d.mode.WantColon? then if b == COLON then Some(d.(mode := WantValue)) else None
    else if d.mode.WantKey? || d.mode.WantKeyOrEnd? then
      if b == QUOTE then Some(d.(mode := InString(true, NoEscape)))
      else if d.mode.WantKeyOrEnd? && b == CLOSE_OBJECT && d.stack != [] then Some(Pop(d))
      else None
    else if d.mode.WantValueOrEnd? && b == CLOSE_LIST && d.stack != [] then Some(Pop(d))
    else ValueByte(d, b)
  }

  /** The decoder after all of `bytes`; `None` from its first rejection on. */
  function Decode(d: State, bytes: seq<Byte>): Option<State>
    decreases |bytes|
  {
    if bytes == [] then Some(d)
    else
      match Consume(d, bytes[0])
      case None => None
      case Some(d') => Decode(d', bytes[1..])
  }

  /** The deepest the decoder's stack gets before it finishes or rejects. */
  function StackPeak(d: State, bytes: seq<Byte>): int
    decreases |bytes|
  {
    if bytes == [] then |d.stack|
    else
      match Consume(d, bytes[0])
      case None => |d.stack|
      case Some(d') => Max(|d.stack|, StackPeak(d', bytes[1..]))
  }

  /** What the scanner must be in when the decoder is in `d`. */
  function Mirror(d: State): Scan {
    Scan(|d.stack|, d.mode.InString?, d.mode.InString? && d.mode.esc.AfterBackslash?)
  }

  lemma ConsumeMirrors(d: State, b: Byte)
    requires Consume(d, b).Some?
    ensures Mirror(Consume(d, b).value) == Advance(Mirror(d), b)
  {
  }

  /** On arbitrary bytes, up to the decoder's first rejection, the depth counter is its stack height. */
  lemma {:induction false} ScannerTracksDecoder(d: State, bytes: seq<Byte>, k: nat)
    requires k <= |bytes| && Decode(d, bytes[..k]).Some?
    ensures Fold(Mirror(d), bytes[..k]) == Mirror(Decode(d, bytes[..k]).value)
    decreases k
  {
    if k > 0 {
      ConsumeMirrors(d, bytes[0]);
      assert bytes[..k][1..] == bytes[1..][..k - 1];
      ScannerTracksDecoder(Consume(d, bytes[0]).value, bytes[1..], k - 1);
    }
  }

  lemma {:induction false} PeaksCompared(d: State, bytes: seq<Byte>)
    ensures StackPeak(d, bytes) <= Peak(Mirror(d), bytes)
    ensures Decode(d, bytes).Some? ==> StackPeak(d, bytes) == Peak(Mirror(d), bytes)
    decreases |bytes|
  {
    if bytes != [] && Consume(d, bytes[0]).Some? {
      ConsumeMirrors(d, bytes[0]);
      PeaksCompared(Consume(d, bytes[0]).value, bytes[1..]);
    }
  }

  /**
   Any bytes the scanner lets through keep the decoder of these bytes within the limit, whatever it makes of
   them; and on bytes the decoder accepts, the scanner refuses only what really exceeds the limit.
   */
  lemma ScannerGuardsDecoder(bytes: seq<Byte>, limit: nat)
    ensures Peak(START, bytes) <= limit ==> StackPeak(BEGIN, bytes) <= limit
    ensures Decode(BEGIN, bytes).Some? ==> (Peak(START, bytes) <= limit <==> StackPeak(BEGIN, bytes) <= limit)
  {
    PeaksCompared(BEGIN, bytes);
  }

  // ----- the decoder accepts every text of every value -----------------------------------------

  lemma {:induction false} DecodeConcat(d: State, a: seq<Byte>, b: seq<Byte>)
    requires Decode(d, a).Some?
    ensures Decode(d, a + b) == Decode(Decode(d, a).value, b)
    decreases |a|
  {
    if a == [] {
      assert a + b == b;
    } else {
      assert (a + b)[1..] == a[1..] + b;
      DecodeConcat(Consume(d, a[0]).value, a[1..], b);
    }
  }

  lemma DecodeOne(d: State, b: Byte)
    ensures Decode(d, [b]) == Consume(d, b)
  {
    assert [b][1..] == [];
  }

  /** `bytes` takes `d` to a complete value at the same height. */
  ghost predicate Completes(d: State, bytes: seq<Byte>) {
    var r := Decode(d, bytes);
    r.Some? && r.value.stack == d.stack && r.value.mode.After?
  }

  lemma {:induction false} SpaceDecodes(d: State, ws: seq<Byte>)
    requires SpaceOk(ws) && !d.mode.InString?
    ensures var r := Decode(d, ws);
            && r.Some? && r.value.stack == d.stack
            && (if d.mode.After? then r.value.mode.After? else r.value.mode == d.mode)
    decreases |ws|
  {
    if ws != [] { SpaceDecodes(Consume(d, ws[0]).value, ws[1..]); }
  }

  lemma {:induction false} LiteralDecodes(d: State, bs: seq<Byte>)
    requires d.mode == After(true) && forall i :: 0 <= i < |bs| ==> IsLiteral(bs[i])
    ensures Decode(d, bs) == Some(d)
    decreases |bs|
  {
    if bs != [] { LiteralDecodes(d, bs[1..]); }
  }

  lemma {:induction false} UnitsDecode(d: State, us: seq<Unit>)
    requires d.mode.InString? && d.mode.esc.NoEscape? && UnitsOk(us)
    ensures Decode(d, UnitsBytes(us)) == Some(d)
    decreases |us|
  {
    if us != [] {
      UnitDecodes(d, us[0]);
      DecodeConcat(d, UnitBytes(us[0]), UnitsBytes(us[1..]));
      UnitsDecode(d, us[1..]);
    }
  }

  lemma UnitDecodes(d: State, u: Unit)
    requires d.mode.InString? && d.mode.esc.NoEscape? && UnitOk(u)
    ensures Decode(d, UnitBytes(u)) == Some(d)
  {
    match u
    case Plain(b) => DecodeOne(d, b);
    case Escape(b) => EscapeDecodes(d, b);
    case Hex(h) =>
      EscapeDecodes(d, 0x75);
      var d1 := d.(mode := InString(d.mode.key, HexLeft(4)));
      DecodeConcat(d, [BACKSLASH, 0x75], h);
      HexDecodes(d1, h);
  }

  lemma EscapeDecodes(d: State, b: Byte)
    requires d.mode.InString? && d.mode.esc.NoEscape?
    ensures IsEscape(b) ==> Decode(d, [BACKSLASH, b]) == Some(d)
    ensures b == 0x75 ==> Decode(d, [BACKSLASH, b]) == Some(d.(mode := InString(d.mode.key, HexLeft(4))))
  {
    assert [BACKSLASH, b][1..] == [b];
    DecodeOne(d.(mode := InString(d.mode.key, AfterBackslash)), b);
  }

  lemma {:induction false} HexDecodes(d: State, h: seq<Byte>)
    requires d.mode.InString? && d.mode.esc.HexLeft? && 1 <= |h| == d.mode.esc.n
    requires forall i :: 0 <= i < |h| ==> IsHex(h[i])
    ensures Decode(d, h) == Some(d.(mode := InString(d.mode.key, NoEscape)))
    decreases |h|
  {
    if |h| == 1 {
      assert h == [h[0]];
      DecodeOne(d, h[0]);
    } else {
      HexDecodes(Consume(d, h[0]).value, h[1..]);
    }
  }

  lemma StringDecodes(d: State, us: seq<Unit>, key: bool)
    requires UnitsOk(us) && !d.mode.InString? && Consume(d, QUOTE) == Some(d.(mode := InString(key, NoEscape)))
    ensures Decode(d, StringBytes(us)) == Some(d.(mode := if key then WantColon else After(false)))
  {
    var d1 := d.(mode := InString(key, NoEscape));
    assert StringBytes(us)[1..] == UnitsBytes(us) + [QUOTE];
    UnitsDecode(d1, us);
    DecodeConcat(d1, UnitsBytes(us), [QUOTE]);
    DecodeOne(d1, QUOTE);
  }

  lemma {:induction false} ValueDecodes(d: State, v: Value)
    requires ValueOk(v) && (d.mode.WantValue? || d.mode.WantValueOrEnd?)
    ensures Completes(d, ValueBytes(v))
    decreases v, 0
  {
    match v
    case Literal(bs) => LiteralDecodes(d.(mode := After(true)), bs[1..]);
    case String(us) => StringDecodes(d, us, false);
    case List(gap, items) =>
      var d1 := State(d.stack + [InList], WantValueOrEnd);
      var body := if items == [] then gap else ItemsBytes(items);
      if items == [] { SpaceDecodes(d1, gap); } else { ItemsDecode(d1, items); }
      CloseDecodes(d, d1, OPEN_LIST, body, CLOSE_LIST);
    case Object(gap, members) =>
      var d1 := State(d.stack + [InObject], WantKeyOrEnd);
      var body := if members == [] then gap else MembersBytes(members);
      if members == [] { SpaceDecodes(d1, gap); } else { MembersDecode(d1, members); }
      CloseDecodes(d, d1, OPEN_OBJECT, body, CLOSE_OBJECT);
  }

  lemma CloseDecodes(d: State, d1: State, open: Byte, body: seq<Byte>, close: Byte)
    requires Consume(d, open) == Some(d1) && Decode(d1, body).Some?
    requires Consume(Decode(d1, body).value, close) == Some(State(d.stack, After(false)))
    ensures Completes(d, [open] + (body + [close]))
  {
    DecodeConcat(d1, body, [close]);
    DecodeOne(Decode(d1, body).value, close);
    assert ([open] + (body + [close]))[1..] == body + [close];
  }

  lemma {:induction false} ItemDecodes(d: State, it: Item)
    requires ItemOk(it) && (d.mode.WantValue? || d.mode.WantValueOrEnd?)
    ensures Completes(d, ItemBytes(it))
    decreases it, 0
  {
    var body := ValueBytes(it.value);
    SpaceDecodes(d, it.pre);
    DecodeConcat(d, it.pre, body + it.post);
    ValueDecodes(d, it.value);
    DecodeConcat(d, body, it.post);
    SpaceDecodes(Decode(d, body).value, it.post);
  }

  lemma {:induction false} ItemsDecode(d: State, items: seq<Item>)
    requires items != [] && (d.mode.WantValue? || d.mode.WantValueOrEnd?) && d.stack != [] && Top(d).InList?
    requires forall i :: 0 <= i < |items| ==> ItemOk(items[i])
    ensures Completes(d, ItemsBytes(items))
    decreases items, 0
  {
    var first := ItemBytes(items[0]);
    ItemDecodes(d, items[0]);
    if |items| > 1 {
      CommaDecodes(d, first, ItemsBytes(items[1..]), WantValue);
      ItemsDecode(d.(mode := WantValue), items[1..]);
    }
  }

  lemma CommaDecodes(d: State, first: seq<Byte>, rest: seq<Byte>, mode: Mode)
    requires Completes(d, first) && d.stack != []
    requires mode == if Top(d).InList? then WantValue else WantKey
    ensures Decode(d, first + ([COMMA] + rest)) == Decode(d.(mode := mode), rest)
  {
    var d1 := Decode(d, first).value;
    DecodeConcat(d, first, [COMMA] + rest);
    assert Consume(d1, COMMA) == Some(d.(mode := mode));
    assert ([COMMA] + rest)[1..] == rest;
  }

  lemma {:induction false} MemberDecodes(d: State, m: Member)
    requires MemberOk(m) && (d.mode.WantKey? || d.mode.WantKeyOrEnd?)
    ensures Completes(d, MemberBytes(m))
    decreases m, 0
  {
    var tail := [COLON] + ItemBytes(m.item);
    var colon := d.(mode := WantColon);
    SpaceDecodes(d, m.pre);
    DecodeConcat(d, m.pre, StringBytes(m.key) + (m.mid + tail));
    StringDecodes(d, m.key, true);
    DecodeConcat(d, StringBytes(m.key), m.mid + tail);
    SpaceDecodes(colon, m.mid);
    DecodeConcat(colon, m.mid, tail);
    assert tail[1..] == ItemBytes(m.item);
    ItemDecodes(d.(mode := WantValue), m.item);
  }

  lemma {:induction false} MembersDecode(d: State, ms: seq<Member>)
    requires ms != [] && (d.mode.WantKey? || d.mode.WantKeyOrEnd?) && d.stack != [] && Top(d).InObject?
    requires forall i :: 0 <= i < |ms| ==> MemberOk(ms[i])
    ensures Completes(d, MembersBytes(ms))
    decreases ms, 0
  {
    var first := MemberBytes(ms[0]);
    MemberDecodes(d, ms[0]);
    if |ms| > 1 {
      CommaDecodes(d, first, MembersBytes(ms[1..]), WantKey);
      MembersDecode(d.(mode := WantKey), ms[1..]);
    }
  }

  /** The decoder accepts every text of every value, and its stack gets exactly as deep as the nesting. */
  lemma DecoderAcceptsEveryText(text: Item)
    requires ItemOk(text)
    ensures Completes(BEGIN, ItemBytes(text))
    ensures StackPeak(BEGIN, ItemBytes(text)) == Depth(text.value)
  {
    ItemDecodes(BEGIN, text);
    PeaksCompared(BEGIN, ItemBytes(text));
    ItemBalanced(START, text);
  }
}
