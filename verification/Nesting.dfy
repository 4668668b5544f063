/**
 The flat byte scanner that four modules run in front of the recursive JSON decoder
 (`_nesting_within_limit`, with limits 64, 64, 16 and 8).

 It is compared with two independent definitions: the nesting of a JSON value, over every text the
 grammar of sections 2 and 7 of RFC 8259 gives that value, and the stack of a recursive decoder, over
 arbitrary bytes. Both take the bytes for UTF-8; `Encodings` says when the decoder does.
 */
module Nesting {
  import J = JsonText

  type Byte = b: int | 0 <= b < 256

  const QUOTE: Byte := 0x22
  const BACKSLASH: Byte := 0x5C
  const COMMA: Byte := 0x2C
  const COLON: Byte := 0x3A
  const OPEN_LIST: Byte := 0x5B
  const CLOSE_LIST: Byte := 0x5D
  const OPEN_OBJECT: Byte := 0x7B
  const CLOSE_OBJECT: Byte := 0x7D

  function Max(a: int, b: int): int { if a < b then b else a }

  // ----- the scanner ---------------------------------------------------------------------------

  datatype Scan = Scan(depth: int, inString: bool, escaped: bool)

  const START := Scan(0, false, false)

  function Advance(s: Scan, b: Byte): Scan {
    if s.inString then
      if s.escaped then s.(escaped := false)
      else if b == BACKSLASH then s.(escaped := true)
      else if b == QUOTE then s.(inString := false)
      else s
    else if b == QUOTE then s.(inString := true)
    else if b == OPEN_LIST || b == OPEN_OBJECT then s.(depth := s.depth + 1)
    else if b == CLOSE_LIST || b == CLOSE_OBJECT then s.(depth := s.depth - 1)
    else s
  }

  function Fold(s: Scan, bytes: seq<Byte>): Scan
    decreases |bytes|
  {
    if bytes == [] then s else Fold(Advance(s, bytes[0]), bytes[1..])
  }

  /** The largest depth the scanner reaches on any prefix, the empty one included. */
  function Peak(s: Scan, bytes: seq<Byte>): int
    decreases |bytes|
  {
    if bytes == [] then s.depth else Max(s.depth, Peak(Advance(s, bytes[0]), bytes[1..]))
  }

  lemma {:induction false} FoldConcat(s: Scan, a: seq<Byte>, b: seq<Byte>)
    ensures Fold(s, a + b) == Fold(Fold(s, a), b)
    ensures Peak(s, a + b) == Max(Peak(s, a), Peak(Fold(s, a), b))
    decreases |a|
  {
    if a == [] {
      assert a + b == b;
      PeakAtLeastStart(s, b);
    } else {
      assert (a + b)[1..] == a[1..] + b;
      FoldConcat(Advance(s, a[0]), a[1..], b);
    }
  }

  lemma PeakAtLeastStart(s: Scan, bytes: seq<Byte>)
    ensures s.depth <= Peak(s, bytes)
  {
  }

  lemma ScanOne(s: Scan, b: Byte)
    ensures Fold(s, [b]) == Advance(s, b) && Peak(s, [b]) == Max(s.depth, Advance(s, b).depth)
  {
    var t := Advance(s, b);
    assert [b][1..] == [];
    assert Fold(t, []) == t && Peak(t, []) == t.depth;
  }

  method NestingWithinLimit(payload: seq<Byte>, limit: nat) returns (ok: bool)
    ensures ok <==> Peak(START, payload) <= limit
  {
    var depth, inString, escaped := 0, false, false;
    for i := 0 to |payload|
      invariant Fold(START, payload[..i]) == Scan(depth, inString, escaped)
      invariant Peak(START, payload[..i]) <= limit
      invariant depth <= limit
    {
      var byte := payload[i];
      ghost var before := Scan(depth, inString, escaped);
      assert payload[..i + 1] == payload[..i] + [byte];
      FoldConcat(START, payload[..i], [byte]);
      ScanOne(before, byte);
      if inString {
        if escaped {
          escaped := false;
        } else if byte == BACKSLASH {
          escaped := true;
        } else if byte == QUOTE {
          inString := false;
        }
        continue;
      }
      if byte == QUOTE {
        inString := true;
      } else if byte == OPEN_LIST || byte == OPEN_OBJECT {
        depth := depth + 1;
        if depth > limit {
          assert payload == payload[..i + 1] + payload[i + 1..];
          FoldConcat(START, payload[..i + 1], payload[i + 1..]);
          return false;
        }
      } else if byte == CLOSE_LIST || byte == CLOSE_OBJECT {
        depth := depth - 1;
      }
    }
    assert payload[..|payload|] == payload;
    return true;
  }

  // ----- every text of a JSON value ------------------------------------------------------------

  /** One unit of a string body: an unescaped byte, a two-byte escape or a \uXXXX escape. */
  datatype Unit = Plain(b: Byte) | Escape(b: Byte) | Hex(d: seq<Byte>)

  /** A JSON value together with one concrete layout: whitespace, escapes and literal spelling. */
  datatype Value =
    | Literal(bytes: seq<Byte>)
    | String(units: seq<Unit>)
    | List(gap: seq<Byte>, items: seq<Item>)
    | Object(gap: seq<Byte>, members: seq<Member>)

  datatype Item = Item(pre: seq<Byte>, value: Value, post: seq<Byte>)

  datatype Member = Member(pre: seq<Byte>, key: seq<Unit>, mid: seq<Byte>, item: Item)

  /** The bytes of numbers, `true`, `false` and `null`. */
  predicate IsLiteral(b: Byte) {
    b == 0x2B || b == 0x2D || b == 0x2E || 0x30 <= b <= 0x39 || 0x41 <= b <= 0x5A || 0x61 <= b <= 0x7A
  }

  predicate IsHex(b: Byte) { 0x30 <= b <= 0x39 || 0x41 <= b <= 0x46 || 0x61 <= b <= 0x66 }

  predicate IsPlain(b: Byte) { 0x20 <= b && b != QUOTE && b != BACKSLASH }

  /** The character after the backslash of a two-byte escape: one of " \ / b f n r t. */
  predicate IsEscape(b: Byte) {
    b == QUOTE || b == BACKSLASH || b == 0x2F || b == 0x62 || b == 0x66 || b == 0x6E || b == 0x72 || b == 0x74
  }

  predicate UnitOk(u: Unit) {
    match u
    case Plain(b) => IsPlain(b)
    case Escape(b) => IsEscape(b)
    case Hex(d) => |d| == 4 && forall i :: 0 <= i < 4 ==> IsHex(d[i])
  }

  predicate SpaceOk(ws: seq<Byte>) { forall i :: 0 <= i < |ws| ==> J.IsSpace(ws[i]) }

  predicate UnitsOk(us: seq<Unit>) { forall i :: 0 <= i < |us| ==> UnitOk(us[i]) }

  predicate ValueOk(v: Value)
    decreases v, 0
  {
    match v
    case Literal(bs) => bs != [] && forall i :: 0 <= i < |bs| ==> IsLiteral(bs[i])
    case String(us) => UnitsOk(us)
    case List(gap, items) => SpaceOk(gap) && forall i :: 0 <= i < |items| ==> ItemOk(items[i])
    case Object(gap, members) => SpaceOk(gap) && forall i :: 0 <= i < |members| ==> MemberOk(members[i])
  }

  predicate ItemOk(it: Item)
    decreases it, 0
  {
    SpaceOk(it.pre) && SpaceOk(it.post) && ValueOk(it.value)
  }

  predicate MemberOk(m: Member)
    decreases m, 0
  {
    SpaceOk(m.pre) && UnitsOk(m.key) && SpaceOk(m.mid) && ItemOk(m.item)
  }

  function UnitBytes(u: Unit): seq<Byte> {
    match u
    case Plain(b) => [b]
    case Escape(b) => [BACKSLASH, b]
    case Hex(d) => [BACKSLASH, 0x75] + d
  }

  function UnitsBytes(us: seq<Unit>): seq<Byte> {
    if us == [] then [] else UnitBytes(us[0]) + UnitsBytes(us[1..])
  }

  function StringBytes(us: seq<Unit>): seq<Byte> {
    [QUOTE] + (UnitsBytes(us) + [QUOTE])
  }

  function ValueBytes(v: Value): seq<Byte>
    decreases v, 0
  {
    match v
    case Literal(bs) => bs
    case String(us) => StringBytes(us)
    case List(gap, items) =>
      [OPEN_LIST] + ((if items == [] then gap else ItemsBytes(items)) + [CLOSE_LIST])
    case Object(gap, members) =>
      [OPEN_OBJECT] + ((if members == [] then gap else MembersBytes(members)) + [CLOSE_OBJECT])
  }

  function ItemBytes(it: Item): seq<Byte>
    decreases it, 0
  {
    it.pre + (ValueBytes(it.value) + it.post)
  }

  function ItemsBytes(items: seq<Item>): seq<Byte>
    requires items != []
    decreases items, 0
  {
    if |items| == 1 then ItemBytes(items[0]) else ItemBytes(items[0]) + ([COMMA] + ItemsBytes(items[1..]))
  }

  function MemberBytes(m: Member): seq<Byte>
    decreases m, 0
  {
    m.pre + (StringBytes(m.key) + (m.mid + ([COLON] + ItemBytes(m.item))))
  }

  function MembersBytes(ms: seq<Member>): seq<Byte>
    requires ms != []
    decreases ms, 0
  {
    if |ms| == 1 then MemberBytes(ms[0]) else MemberBytes(ms[0]) + ([COMMA] + MembersBytes(ms[1..]))
  }

  /** Container nesting of the value; layout plays no part. */
  function Depth(v: Value): nat
    decreases v, 0
  {
    match v
    case Literal(_) => 0
    case String(_) => 0
    case List(_, items) => 1 + ItemsDepth(items)
    case Object(_, members) => 1 + MembersDepth(members)
  }

  function ItemsDepth(items: seq<Item>): nat
    decreases items, 0
  {
    if items == [] then 0 else Max(Depth(items[0].value), ItemsDepth(items[1..]))
  }

  function MembersDepth(ms: seq<Member>): nat
    decreases ms, 0
  {
    if ms == [] then 0 else Max(Depth(ms[0].item.value), MembersDepth(ms[1..]))
  }

  /** Scanning `bytes` from `s` ends where it started, having climbed `d` levels in between. */
  ghost predicate Balanced(s: Scan, bytes: seq<Byte>, d: int) {
    Fold(s, bytes) == s && Peak(s, bytes) == s.depth + d
  }

  lemma BalancedConcat(s: Scan, a: seq<Byte>, da: int, b: seq<Byte>, db: int)
    requires Balanced(s, a, da) && Balanced(s, b, db)
    ensures Balanced(s, a + b, Max(da, db))
  {
    FoldConcat(s, a, b);
  }

  /** Bytes that mean nothing to the scanner outside strings. */
  lemma {:induction false} InertBalanced(s: Scan, bytes: seq<Byte>)
    requires !s.inString
    requires forall i :: 0 <= i < |bytes| ==> J.IsSpace(bytes[i]) || IsLiteral(bytes[i]) || bytes[i] == COMMA || bytes[i] == COLON
    ensures Balanced(s, bytes, 0)
    decreases |bytes|
  {
    if bytes != [] {
      assert Advance(s, bytes[0]) == s;
      InertBalanced(s, bytes[1..]);
    }
  }

  lemma {:induction false} UnitsBalanced(s: Scan, us: seq<Unit>)
    requires s.inString && !s.escaped && UnitsOk(us)
    ensures Balanced(s, UnitsBytes(us), 0)
    decreases |us|
  {
    if us != [] {
      UnitBalanced(s, us[0]);
      UnitsBalanced(s, us[1..]);
      BalancedConcat(s, UnitBytes(us[0]), 0, UnitsBytes(us[1..]), 0);
    }
  }

  lemma UnitBalanced(s: Scan, u: Unit)
    requires s.inString && !s.escaped && UnitOk(u)
    ensures Balanced(s, UnitBytes(u), 0)
  {
    match u
    case Plain(b) => ScanOne(s, b);
    case Escape(b) => EscapeBalanced(s, b);
    case Hex(d) =>
      EscapeBalanced(s, 0x75);
      HexBalanced(s, d);
      BalancedConcat(s, [BACKSLASH, 0x75], 0, d, 0);
  }

  lemma EscapeBalanced(s: Scan, b: Byte)
    requires s.inString && !s.escaped
    ensures Balanced(s, [BACKSLASH, b], 0)
  {
    assert [BACKSLASH, b] == [BACKSLASH] + [b];
    ScanOne(s, BACKSLASH);
    ScanOne(Advance(s, BACKSLASH), b);
    FoldConcat(s, [BACKSLASH], [b]);
  }

  lemma {:induction false} HexBalanced(s: Scan, d: seq<Byte>)
    requires s.inString && !s.escaped && forall i :: 0 <= i < |d| ==> IsHex(d[i])
    ensures Balanced(s, d, 0)
    decreases |d|
  {
    if d != [] { HexBalanced(s, d[1..]); }
  }

  /** `body` scanned one level (or one string) in, between a byte that enters and a byte that leaves. */
  lemma Bracketed(s: Scan, open: Byte, body: seq<Byte>, d: int, close: Byte)
    requires var t := Advance(s, open);
             Balanced(t, body, d) && Advance(t, close) == s && s.depth <= t.depth && 0 <= d
    ensures Balanced(s, [open] + (body + [close]), Advance(s, open).depth - s.depth + d)
  {
    var t := Advance(s, open);
    ScanOne(t, close);
    FoldConcat(t, body, [close]);
    assert ([open] + (body + [close]))[1..] == body + [close];
  }

  lemma StringBalanced(s: Scan, us: seq<Unit>)
    requires !s.inString && !s.escaped && UnitsOk(us)
    ensures Balanced(s, StringBytes(us), 0)
  {
    UnitsBalanced(Advance(s, QUOTE), us);
    Bracketed(s, QUOTE, UnitsBytes(us), 0, QUOTE);
  }

  lemma {:induction false} ValueBalanced(s: Scan, v: Value)
    requires !s.inString && !s.escaped && ValueOk(v)
    ensures Balanced(s, ValueBytes(v), Depth(v))
    decreases v, 0
  {
    match v
    case Literal(bs) => InertBalanced(s, bs);
    case String(us) => StringBalanced(s, us);
    case List(gap, items) =>
      var t := Advance(s, OPEN_LIST);
      if items == [] { InertBalanced(t, gap); } else { ItemsBalanced(t, items); }
      Bracketed(s, OPEN_LIST, if items == [] then gap else ItemsBytes(items), ItemsDepth(items), CLOSE_LIST);
    case Object(gap, members) =>
      var t := Advance(s, OPEN_OBJECT);
      if members == [] { InertBalanced(t, gap); } else { MembersBalanced(t, members); }
      Bracketed(s, OPEN_OBJECT, if members == [] then gap else MembersBytes(members), MembersDepth(members), CLOSE_OBJECT);
  }

  lemma {:induction false} ItemBalanced(s: Scan, it: Item)
    requires !s.inString && !s.escaped && ItemOk(it)
    ensures Balanced(s, ItemBytes(it), Depth(it.value))
    decreases it, 0
  {
    InertBalanced(s, it.pre);
    ValueBalanced(s, it.value);
    InertBalanced(s, it.post);
    BalancedConcat(s, ValueBytes(it.value), Depth(it.value), it.post, 0);
    BalancedConcat(s, it.pre, 0, ValueBytes(it.value) + it.post, Depth(it.value));
  }

  lemma {:induction false} ItemsBalanced(s: Scan, items: seq<Item>)
    requires !s.inString && !s.escaped && items != []
    requires forall i :: 0 <= i < |items| ==> ItemOk(items[i])
    ensures Balanced(s, ItemsBytes(items), ItemsDepth(items))
    decreases items, 0
  {
    ItemBalanced(s, items[0]);
    if |items| > 1 {
      var rest := items[1..];
      ItemsBalanced(s, rest);
      InertBalanced(s, [COMMA]);
      BalancedConcat(s, [COMMA], 0, ItemsBytes(rest), ItemsDepth(rest));
      BalancedConcat(s, ItemBytes(items[0]), Depth(items[0].value), [COMMA] + ItemsBytes(rest), ItemsDepth(rest));
    }
  }

  lemma {:induction false} MemberBalanced(s: Scan, m: Member)
    requires !s.inString && !s.escaped && MemberOk(m)
    ensures Balanced(s, MemberBytes(m), Depth(m.item.value))
    decreases m, 0
  {
    var d, body := Depth(m.item.value), ItemBytes(m.item);
    ItemBalanced(s, m.item);
    InertBalanced(s, [COLON]);
    BalancedConcat(s, [COLON], 0, body, d);
    InertBalanced(s, m.mid);
    BalancedConcat(s, m.mid, 0, [COLON] + body, d);
    StringBalanced(s, m.key);
    BalancedConcat(s, StringBytes(m.key), 0, m.mid + ([COLON] + body), d);
    InertBalanced(s, m.pre);
    BalancedConcat(s, m.pre, 0, StringBytes(m.key) + (m.mid + ([COLON] + body)), d);
  }

  lemma {:induction false} MembersBalanced(s: Scan, ms: seq<Member>)
    requires !s.inString && !s.escaped && ms != []
    requires forall i :: 0 <= i < |ms| ==> MemberOk(ms[i])
    ensures Balanced(s, MembersBytes(ms), MembersDepth(ms))
    decreases ms, 0
  {
    MemberBalanced(s, ms[0]);
    if |ms| > 1 {
      var rest := ms[1..];
      MembersBalanced(s, rest);
      InertBalanced(s, [COMMA]);
      BalancedConcat(s, [COMMA], 0, MembersBytes(rest), MembersDepth(rest));
      BalancedConcat(s, MemberBytes(ms[0]), Depth(ms[0].item.value), [COMMA] + MembersBytes(rest), MembersDepth(rest));
    }
  }

  /** On every text of every JSON value the scanner accepts exactly when the nesting is within the limit. */
  lemma ScannerDecidesNesting(text: Item, limit: nat)
    requires ItemOk(text)
    ensures Peak(START, ItemBytes(text)) <= limit <==> Depth(text.value) <= limit
  {
    ItemBalanced(START, text);
  }
}
