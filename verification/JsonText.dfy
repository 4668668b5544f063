/**
 JSON values, their compact text as `json.dumps(separators=(",", ":"), ensure_ascii=False)` writes it,
 and the strict duplicate-free parser that reads it back (sections 2 to 7 of RFC 8259).

 Text is a sequence of code points; UTF-8 is not part of this model. Numbers are integers: the parser
 rejects fractions and exponents, as `parse_json` of the canary contracts does.
 */
module JsonText {
  import opened Options
  import opened Sorting

  datatype Json =
    | Null
    | Bool(b: bool)
    | Int(n: int)
    | Str(s: Text)
    | Arr(items: seq<Json>)
    | Obj(fields: seq<Field>)

  /** A dictionary is the sequence of its entries in insertion order. */
  datatype Field = Field(key: Text, value: Json)

  // ----- printing ------------------------------------------------------------------------------

  const QUOTE := 0x22
  const BACKSLASH := 0x5C
  const NULL_TEXT: Text := [0x6E, 0x75, 0x6C, 0x6C]
  const TRUE_TEXT: Text := [0x74, 0x72, 0x75, 0x65]
  const FALSE_TEXT: Text := [0x66, 0x61, 0x6C, 0x73, 0x65]

  function HexDigit(d: int): int
    requires 0 <= d < 16
  {
    if d < 10 then 0x30 + d else 0x57 + d
  }

  function PrintPoint(c: int): Text {
    if c == QUOTE || c == BACKSLASH then [BACKSLASH, c]
    else if c == 0x08 then [BACKSLASH, 0x62]
    else if c == 0x09 then [BACKSLASH, 0x74]
    else if c == 0x0A then [BACKSLASH, 0x6E]
    else if c == 0x0C then [BACKSLASH, 0x66]
    else if c == 0x0D then [BACKSLASH, 0x72]
    else if 0 <= c < 0x20 then [BACKSLASH, 0x75, 0x30, 0x30, HexDigit(c / 16), HexDigit(c % 16)]
    else [c]
  }

  function PrintBody(s: Text): Text {
    if s == [] then [] else PrintPoint(s[0]) + PrintBody(s[1..])
  }

  function PrintString(s: Text): Text {
    [QUOTE] + (PrintBody(s) + [QUOTE])
  }

  function Digits(n: nat): Text {
    if n < 10 then [0x30 + n] else Digits(n / 10) + [0x30 + n % 10]
  }

  function PrintInt(n: int): Text {
    if n < 0 then [0x2D] + Digits(-n) else Digits(n)
  }

  function Print(v: Json): Text
    decreases v, 0
  {
    match v
    case Null => NULL_TEXT
    case Bool(b) => if b then TRUE_TEXT else FALSE_TEXT
    case Int(n) => PrintInt(n)
    case Str(s) => PrintString(s)
    case Arr(items) => [0x5B] + (PrintItems(items) + [0x5D])
    case Obj(fields) => [0x7B] + (PrintFields(fields) + [0x7D])
  }

  function PrintItems(items: seq<Json>): Text
    decreases items, 0
  {
    if items == [] then []
    else if |items| == 1 then Print(items[0])
    else Print(items[0]) + ([0x2C] + PrintItems(items[1..]))
  }

  function PrintField(f: Field): Text
    decreases f, 0
  {
    PrintString(f.key) + ([0x3A] + Print(f.value))
  }

  function PrintFields(fields: seq<Field>): Text
    decreases fields, 0
  {
    if fields == [] then []
    else if |fields| == 1 then PrintField(fields[0])
    else PrintField(fields[0]) + ([0x2C] + PrintFields(fields[1..]))
  }

  // ----- parsing -------------------------------------------------------------------------------

  datatype Parsed<+T> = Parsed(value: T, rest: Text)

  predicate IsSpace(c: int) { c == 0x20 || c == 0x09 || c == 0x0A || c == 0x0D }

  predicate IsDigit(c: int) { 0x30 <= c <= 0x39 }

  function SkipSpace(s: Text): (r: Text)
    ensures |r| <= |s|
    ensures r == [] || !IsSpace(r[0])
  {
    if s != [] && IsSpace(s[0]) then SkipSpace(s[1..]) else s
  }

  function HexValue(c: int): Option<int> {
    if IsDigit(c) then Some(c - 0x30)
    else if 0x61 <= c <= 0x66 then Some(c - 0x57)
    else if 0x41 <= c <= 0x46 then Some(c - 0x37)
    else None
  }

  /** The code unit of a four-digit escape. */
  function HexUnit(s: Text): Option<int> {
    if |s| < 4 || HexValue(s[0]).None? || HexValue(s[1]).None? || HexValue(s[2]).None? || HexValue(s[3]).None? then None
    else Some(((HexValue(s[0]).value * 16 + HexValue(s[1]).value) * 16 + HexValue(s[2]).value) * 16 + HexValue(s[3]).value)
  }

  /** A \uXXXX escape after its `u`; a high surrogate joins a directly following low one. */
  function ParseUnicode(s: Text): (r: Option<Parsed<int>>)
    ensures r.Some? ==> |r.value.rest| < |s|
  {
    match HexUnit(s)
    case None => None
    case Some(hi) =>
      var rest := s[4..];
      if 0xD800 <= hi <= 0xDBFF && |rest| >= 2 && rest[0] == BACKSLASH && rest[1] == 0x75 then
        match HexUnit(rest[2..])
        case None => None
        case Some(lo) =>
          if 0xDC00 <= lo <= 0xDFFF then
            Some(Parsed(0x10000 + (hi - 0xD800) * 0x400 + (lo - 0xDC00), rest[6..]))
          else Some(Parsed(hi, rest))
      else Some(Parsed(hi, rest))
  }

  /** One character of a string body. */
  function ParsePoint(s: Text): (r: Option<Parsed<int>>)
    requires s != []
    ensures r.Some? ==> |r.value.rest| < |s|
  {
    if s[0] == BACKSLASH then
      if |s| < 2 then None
      else if s[1] == QUOTE || s[1] == BACKSLASH || s[1] == 0x2F then Some(Parsed(s[1], s[2..]))
      else if s[1] == 0x62 then Some(Parsed(0x08, s[2..]))
      else if s[1] == 0x66 then Some(Parsed(0x0C, s[2..]))
      else if s[1] == 0x6E then Some(Parsed(0x0A, s[2..]))
      else if s[1] == 0x72 then Some(Parsed(0x0D, s[2..]))
      else if s[1] == 0x74 then Some(Parsed(0x09, s[2..]))
      else if s[1] == 0x75 then ParseUnicode(s[2..])
      else None
    else if 0 <= s[0] < 0x20 then None
    else Some(Parsed(s[0], s[1..]))
  }

  /** A string body up to and including its closing quote. */
  function ParseBody(s: Text): (r: Option<Parsed<Text>>)
    ensures r.Some? ==> |r.value.rest| < |s|
    decreases |s|
  {
    if s == [] then None
    else if s[0] == QUOTE then Some(Parsed([], s[1..]))
    else
      match ParsePoint(s)
      case None => None
      case Some(Parsed(c, rest)) =>
        match ParseBody(rest)
        case None => None
        case Some(Parsed(t, rest')) => Some(Parsed([c] + t, rest'))
  }

  function DigitRun(s: Text): (n: nat)
    ensures n <= |s|
  {
    if s != [] && IsDigit(s[0]) then 1 + DigitRun(s[1..]) else 0
  }

  function DigitsValue(s: Text): int {
    if s == [] then 0 else DigitsValue(s[..|s| - 1]) * 10 + (s[|s| - 1] - 0x30)
  }

  /** An unsigned integer: `0` or a digit run without leading zero; no fraction and no exponent. */
  function ParseNat(s: Text): (r: Option<Parsed<int>>)
    ensures r.Some? ==> |r.value.rest| < |s|
  {
    var run := DigitRun(s);
    if run == 0 then None
    else
      var used := if s[0] == 0x30 then 1 else run;
      if used < |s| && (s[used] == 0x2E || s[used] == 0x45 || s[used] == 0x65) then None
      else Some(Parsed(DigitsValue(s[..used]), s[used..]))
  }

  function ParseInt(s: Text): (r: Option<Parsed<Json>>)
    ensures r.Some? ==> |r.value.rest| < |s|
  {
    if s != [] && s[0] == 0x2D then
      match ParseNat(s[1..])
      case None => None
      case Some(Parsed(n, rest)) => Some(Parsed(Int(-n), rest))
    else
      match ParseNat(s)
      case None => None
      case Some(Parsed(n, rest)) => Some(Parsed(Int(n), rest))
  }

  /** A value that starts at the first character of `s`. */
  function ParseValue(s: Text): (r: Option<Parsed<Json>>)
    ensures r.Some? ==> |r.value.rest| < |s|
    decreases |s|, 0
  {
    if s == [] then None
    else if s[0] == QUOTE then
      match ParseBody(s[1..])
      case None => None
      case Some(Parsed(t, rest)) => Some(Parsed(Str(t), rest))
    else if s[0] == 0x5B then
      var s1 := SkipSpace(s[1..]);
      if s1 != [] && s1[0] == 0x5D then Some(Parsed(Arr([]), s1[1..]))
      else
        match ParseItems(s1)
        case None => None
        case Some(Parsed(items, rest)) => Some(Parsed(Arr(items), rest))
    else if s[0] == 0x7B then
      var s1 := SkipSpace(s[1..]);
      if s1 != [] && s1[0] == 0x7D then Some(Parsed(Obj([]), s1[1..]))
      else
        match ParseFields(s1)
        case None => None
        case Some(Parsed(fields, rest)) => if UniqueKeys(fields) then Some(Parsed(Obj(fields), rest)) else None
    else if NULL_TEXT <= s then Some(Parsed(Null, s[4..]))
    else if TRUE_TEXT <= s then Some(Parsed(Bool(true), s[4..]))
    else if FALSE_TEXT <= s then Some(Parsed(Bool(false), s[5..]))
    else ParseInt(s)
  }

  /** One or more values separated by commas, up to and including `]`. */
  function ParseItems(s: Text): (r: Option<Parsed<seq<Json>>>)
    ensures r.Some? ==> |r.value.rest| < |s|
    decreases |s|, 1
  {
    match ParseValue(s)
    case None => None
    case Some(Parsed(v, rest)) =>
      var s1 := SkipSpace(rest);
      if s1 == [] then None
      else if s1[0] == 0x5D then Some(Parsed([v], s1[1..]))
      else if s1[0] == 0x2C then
        match ParseItems(SkipSpace(s1[1..]))
        case None => None
        case Some(Parsed(vs, rest')) => Some(Parsed([v] + vs, rest'))
      else None
  }

  /** A quoted key, a colon and a value. */
  function ParseField(s: Text): (r: Option<Parsed<Field>>)
    ensures r.Some? ==> |r.value.rest| < |s|
    decreases |s|, 1
  {
    if s == [] || s[0] != QUOTE then None
    else
      match ParseBody(s[1..])
      case None => None
      case Some(Parsed(key, rest)) =>
        var s1 := SkipSpace(rest);
        if s1 == [] || s1[0] != 0x3A then None
        else
          match ParseValue(SkipSpace(s1[1..]))
          case None => None
          case Some(Parsed(v, rest')) => Some(Parsed(Field(key, v), rest'))
  }

  /** One or more fields separated by commas, up to and including `}`. */
  function ParseFields(s: Text): (r: Option<Parsed<seq<Field>>>)
    ensures r.Some? ==> |r.value.rest| < |s|
    decreases |s|, 2
  {
    match ParseField(s)
    case None => None
    case Some(Parsed(f, rest)) =>
      var s1 := SkipSpace(rest);
      if s1 == [] then None
      else if s1[0] == 0x7D then Some(Parsed([f], s1[1..]))
      else if s1[0] == 0x2C then
        match ParseFields(SkipSpace(s1[1..]))
        case None => None
        case Some(Parsed(fs, rest')) => Some(Parsed([f] + fs, rest'))
      else None
  }

  /** A whole document: nothing but whitespace around one value. */
  function ParseDocument(s: Text): Option<Json> {
    match ParseValue(SkipSpace(s))
    case None => None
    case Some(Parsed(v, rest)) => if SkipSpace(rest) == [] then Some(v) else None
  }

  predicate UniqueKeys(fields: seq<Field>) {
    forall i, j :: 0 <= i < j < |fields| ==> fields[i].key != fields[j].key
  }

  /** No dictionary inside `v` has a key twice. */
  predicate Proper(v: Json)
    decreases v, 0
  {
    match v
    case Arr(items) => forall i :: 0 <= i < |items| ==> Proper(items[i])
    case Obj(fields) => UniqueKeys(fields) && forall i :: 0 <= i < |fields| ==> Proper(fields[i].value)
    case _ => true
  }

  // ----- parsing inverts printing --------------------------------------------------------------

  lemma ConcatAssoc(a: Text, b: Text, c: Text)
    ensures (a + b) + c == a + (b + c)
  {
  }

  lemma PrintPointParses(c: int, tail: Text)
    ensures PrintPoint(c) != [] && PrintPoint(c)[0] != QUOTE
    ensures ParsePoint(PrintPoint(c) + tail) == Some(Parsed(c, tail))
  {
    var s := PrintPoint(c) + tail;
    if 0 <= c < 0x20 && |PrintPoint(c)| == 6 {
      assert s[2..][..4] == [0x30, 0x30, HexDigit(c / 16), HexDigit(c % 16)];
      assert s[2..][4..] == tail;
    } else if |PrintPoint(c)| == 2 {
      assert s[2..] == tail;
    } else {
      assert s[1..] == tail;
    }
  }

  lemma {:induction false} PrintBodyParses(t: Text, tail: Text)
    ensures ParseBody(PrintBody(t) + ([QUOTE] + tail)) == Some(Parsed(t, tail))
    decreases |t|
  {
    var s := PrintBody(t) + ([QUOTE] + tail);
    if t == [] {
      assert s == [QUOTE] + tail;
    } else {
      var s1 := PrintBody(t[1..]) + ([QUOTE] + tail);
      assert s == PrintPoint(t[0]) + s1;
      PrintPointParses(t[0], s1);
      PrintBodyParses(t[1..], tail);
      assert t == [t[0]] + t[1..];
    }
  }

  lemma {:induction false} DigitsShape(n: nat)
    ensures var d := Digits(n);
            && d != []
            && (forall i :: 0 <= i < |d| ==> IsDigit(d[i]))
            && (d[0] == 0x30 ==> n == 0 && |d| == 1)
            && DigitsValue(d) == n
  {
    if n >= 10 {
      DigitsShape(n / 10);
      var d := Digits(n);
      assert d[..|d| - 1] == Digits(n / 10);
    } else {
      assert [0x30 + n][..0] == [];
    }
  }

  /** What may follow a printed value: anything that does not continue a number. */
  predicate Delimits(tail: Text) {
    tail == [] || !(IsDigit(tail[0]) || tail[0] == 0x2E || tail[0] == 0x45 || tail[0] == 0x65)
  }

  lemma {:induction false} DigitRunStops(d: Text, tail: Text)
    requires forall i :: 0 <= i < |d| ==> IsDigit(d[i])
    requires Delimits(tail)
    ensures DigitRun(d + tail) == |d|
    decreases |d|
  {
    if d == [] {
      assert d + tail == tail;
    } else {
      assert (d + tail)[1..] == d[1..] + tail;
      DigitRunStops(d[1..], tail);
    }
  }

  lemma DigitsParse(n: nat, tail: Text)
    requires Delimits(tail)
    ensures ParseNat(Digits(n) + tail) == Some(Parsed(n, tail))
  {
    var d := Digits(n);
    DigitsShape(n);
    DigitRunStops(d, tail);
    assert (d + tail)[..|d|] == d && (d + tail)[|d|..] == tail;
  }

  lemma IntStarts(n: int)
    ensures PrintInt(n) != [] && (IsDigit(PrintInt(n)[0]) <==> n >= 0) && (PrintInt(n)[0] == 0x2D <==> n < 0)
  {
    DigitsShape(if n < 0 then -n else n);
  }

  lemma PrintIntParses(n: int, tail: Text)
    requires Delimits(tail)
    ensures ParseInt(PrintInt(n) + tail) == Some(Parsed(Int(n), tail))
  {
    IntStarts(n);
    DigitsParse(if n < 0 then -n else n, tail);
    if n < 0 {
      assert (PrintInt(n) + tail)[1..] == Digits(-n) + tail;
    }
  }

  /** The first character of a printed value is none that a parser would skip or take for an end. */
  lemma PrintStarts(v: Json)
    ensures var t := Print(v); t != [] && !IsSpace(t[0]) && t[0] != 0x5D && t[0] != 0x7D
  {
    if v.Int? { IntStarts(v.n); }
  }

  lemma ConstantParses(v: Json, tail: Text)
    requires v.Null? || v.Bool?
    ensures ParseValue(Print(v) + tail) == Some(Parsed(v, tail))
  {
    var s := Print(v) + tail;
    var n := |Print(v)|;
    assert s[..n] == Print(v) && s[n..] == tail;
    assert s[0] == Print(v)[0];
  }

  lemma IntParses(n: int, tail: Text)
    requires Delimits(tail)
    ensures ParseValue(PrintInt(n) + tail) == Some(Parsed(Int(n), tail))
  {
    var s := PrintInt(n) + tail;
    IntStarts(n);
    PrintIntParses(n, tail);
    assert s[0] == PrintInt(n)[0];
    assert NULL_TEXT[0] != s[0] && TRUE_TEXT[0] != s[0] && FALSE_TEXT[0] != s[0];
  }

  lemma StringParses(t: Text, tail: Text)
    ensures ParseValue(PrintString(t) + tail) == Some(Parsed(Str(t), tail))
  {
    var s := PrintString(t) + tail;
    assert s[1..] == PrintBody(t) + ([QUOTE] + tail);
    PrintBodyParses(t, tail);
  }

  // One step of each list rule of the parser.

  lemma LastItem(s: Text, v: Json, tail: Text)
    requires ParseValue(s) == Some(Parsed(v, [0x5D] + tail))
    ensures ParseItems(s) == Some(Parsed([v], tail))
  {
  }

  lemma NextItem(s: Text, v: Json, s1: Text, vs: seq<Json>, tail: Text)
    requires ParseValue(s) == Some(Parsed(v, [0x2C] + s1)) && s1 != [] && !IsSpace(s1[0])
    requires ParseItems(s1) == Some(Parsed(vs, tail))
    ensures ParseItems(s) == Some(Parsed([v] + vs, tail))
  {
    assert ([0x2C] + s1)[1..] == s1;
    assert SkipSpace(s1) == s1;
  }

  lemma WholeField(body: Text, key: Text, s1: Text, v: Json, tail: Text)
    requires ParseBody(body) == Some(Parsed(key, [0x3A] + s1)) && s1 != [] && !IsSpace(s1[0])
    requires ParseValue(s1) == Some(Parsed(v, tail))
    ensures ParseField([QUOTE] + body) == Some(Parsed(Field(key, v), tail))
  {
    assert ([QUOTE] + body)[1..] == body;
    assert ([0x3A] + s1)[1..] == s1;
    assert SkipSpace(s1) == s1;
  }

  lemma LastField(s: Text, f: Field, tail: Text)
    requires ParseField(s) == Some(Parsed(f, [0x7D] + tail))
    ensures ParseFields(s) == Some(Parsed([f], tail))
  {
  }

  lemma NextField(s: Text, f: Field, s1: Text, fs: seq<Field>, tail: Text)
    requires ParseField(s) == Some(Parsed(f, [0x2C] + s1)) && s1 != [] && !IsSpace(s1[0])
    requires ParseFields(s1) == Some(Parsed(fs, tail))
    ensures ParseFields(s) == Some(Parsed([f] + fs, tail))
  {
    assert ([0x2C] + s1)[1..] == s1;
    assert SkipSpace(s1) == s1;
  }

  lemma WholeList(s1: Text, items: seq<Json>, tail: Text)
    requires s1 != [] && !IsSpace(s1[0]) && s1[0] != 0x5D && ParseItems(s1) == Some(Parsed(items, tail))
    ensures ParseValue([0x5B] + s1) == Some(Parsed(Arr(items), tail))
  {
    assert ([0x5B] + s1)[1..] == s1;
    assert SkipSpace(s1) == s1;
  }

  lemma WholeDict(s1: Text, fields: seq<Field>, tail: Text)
    requires s1 != [] && s1[0] == QUOTE && UniqueKeys(fields) && ParseFields(s1) == Some(Parsed(fields, tail))
    ensures ParseValue([0x7B] + s1) == Some(Parsed(Obj(fields), tail))
  {
    assert ([0x7B] + s1)[1..] == s1;
    assert SkipSpace(s1) == s1;
  }

  lemma EmptyContainers(tail: Text)
    ensures ParseValue([0x5B] + ([0x5D] + tail)) == Some(Parsed(Arr([]), tail))
    ensures ParseValue([0x7B] + ([0x7D] + tail)) == Some(Parsed(Obj([]), tail))
  {
    assert ([0x5B] + ([0x5D] + tail))[1..] == [0x5D] + tail;
    assert ([0x7B] + ([0x7D] + tail))[1..] == [0x7D] + tail;
  }

  lemma {:induction false} PrintValueParses(v: Json, tail: Text)
    requires Proper(v) && Delimits(tail)
    ensures ParseValue(Print(v) + tail) == Some(Parsed(v, tail))
    decreases v, 0
  {
    match v
    case Null => ConstantParses(v, tail);
    case Bool(b) => ConstantParses(v, tail);
    case Int(n) => IntParses(n, tail);
    case Str(t) => StringParses(t, tail);
    case Arr(items) =>
      assert Print(v) + tail == [0x5B] + (PrintItems(items) + ([0x5D] + tail));
      EmptyContainers(tail);
      if items == [] {
        assert PrintItems(items) + ([0x5D] + tail) == [0x5D] + tail;
      } else {
        PrintItemsParse(items, tail);
        WholeList(PrintItems(items) + ([0x5D] + tail), items, tail);
      }
    case Obj(fields) =>
      assert Print(v) + tail == [0x7B] + (PrintFields(fields) + ([0x7D] + tail));
      EmptyContainers(tail);
      if fields == [] {
        assert PrintFields(fields) + ([0x7D] + tail) == [0x7D] + tail;
      } else {
        PrintFieldsParse(fields, tail);
        WholeDict(PrintFields(fields) + ([0x7D] + tail), fields, tail);
      }
  }

  lemma {:induction false} PrintItemsParse(items: seq<Json>, tail: Text)
    requires items != [] && forall i :: 0 <= i < |items| ==> Proper(items[i])
    ensures var t := PrintItems(items); t != [] && !IsSpace(t[0]) && t[0] != 0x5D
    ensures ParseItems(PrintItems(items) + ([0x5D] + tail)) == Some(Parsed(items, tail))
    decreases items, 0
  {
    var close := [0x5D] + tail;
    PrintStarts(items[0]);
    if |items| == 1 {
      PrintValueParses(items[0], close);
      LastItem(Print(items[0]) + close, items[0], tail);
      assert items == [items[0]];
    } else {
      var s1 := PrintItems(items[1..]) + close;
      PrintValueParses(items[0], [0x2C] + s1);
      PrintItemsParse(items[1..], tail);
      NextItem(Print(items[0]) + ([0x2C] + s1), items[0], s1, items[1..], tail);
      ConcatAssoc(Print(items[0]), [0x2C] + PrintItems(items[1..]), close);
      ConcatAssoc([0x2C], PrintItems(items[1..]), close);
      assert items == [items[0]] + items[1..];
    }
  }

  lemma {:induction false} PrintFieldParses(f: Field, tail: Text)
    requires Proper(f.value) && Delimits(tail)
    ensures ParseField(PrintField(f) + tail) == Some(Parsed(f, tail))
    decreases f, 0
  {
    var s1 := Print(f.value) + tail;
    var body := PrintBody(f.key) + ([QUOTE] + ([0x3A] + s1));
    assert PrintField(f) + tail == [QUOTE] + body by {
      ConcatAssoc(PrintString(f.key), [0x3A] + Print(f.value), tail);
      ConcatAssoc([0x3A], Print(f.value), tail);
      ConcatAssoc([QUOTE], PrintBody(f.key) + [QUOTE], [0x3A] + s1);
      ConcatAssoc(PrintBody(f.key), [QUOTE], [0x3A] + s1);
    }
    PrintBodyParses(f.key, [0x3A] + s1);
    PrintStarts(f.value);
    PrintValueParses(f.value, tail);
    WholeField(body, f.key, s1, f.value, tail);
  }

  lemma {:induction false} PrintFieldsParse(fields: seq<Field>, tail: Text)
    requires fields != [] && forall i :: 0 <= i < |fields| ==> Proper(fields[i].value)
    ensures PrintFields(fields) != [] && PrintFields(fields)[0] == QUOTE
    ensures ParseFields(PrintFields(fields) + ([0x7D] + tail)) == Some(Parsed(fields, tail))
    decreases fields, 0
  {
    var close := [0x7D] + tail;
    if |fields| == 1 {
      PrintFieldParses(fields[0], close);
      LastField(PrintField(fields[0]) + close, fields[0], tail);
      assert fields == [fields[0]];
    } else {
      var s1 := PrintFields(fields[1..]) + close;
      PrintFieldParses(fields[0], [0x2C] + s1);
      PrintFieldsParse(fields[1..], tail);
      NextField(PrintField(fields[0]) + ([0x2C] + s1), fields[0], s1, fields[1..], tail);
      ConcatAssoc(PrintField(fields[0]), [0x2C] + PrintFields(fields[1..]), close);
      ConcatAssoc([0x2C], PrintFields(fields[1..]), close);
      assert fields == [fields[0]] + fields[1..];
    }
  }

  /** The strict parser reads every printed value back, entry order included. */
  lemma ParseInvertsPrint(v: Json)
    requires Proper(v)
    ensures ParseDocument(Print(v)) == Some(v)
  {
    PrintStarts(v);
    assert Print(v) + [] == Print(v);
    PrintValueParses(v, []);
  }

  /** Hence equal text means equal values. */
  lemma PrintInjective(v: Json, w: Json)
    requires Proper(v) && Proper(w) && Print(v) == Print(w)
    ensures v == w
  {
    ParseInvertsPrint(v);
    ParseInvertsPrint(w);
  }
}
